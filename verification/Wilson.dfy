/**
  Wilson score intervals in exact arithmetic. The square root is a parameter; rounding of floating-point numbers is
  not part of this model.
 */
module Wilson {

  datatype Proportion = Proportion(k: int, n: int, p: real, low: real, high: real, halfWidth: real)

  type Root = real -> real

  ghost predicate IsRoot(sqrt: Root) {
    forall x: real :: x >= 0.0 ==> sqrt(x) >= 0.0 && sqrt(x) * sqrt(x) == x
  }

  function Variance(p: real, n: real, z: real): real
    requires n > 0.0
  {
    p * (1.0 - p) / n + z * z / (4.0 * n * n)
  }

  function Centre(p: real, n: real, z: real): real
    requires n > 0.0
  {
    Positive(n, z);
    (p + z * z / (2.0 * n)) / (1.0 + z * z / n)
  }

  function Half(sqrt: Root, p: real, n: real, z: real): real
    requires n > 0.0
  {
    Positive(n, z);
    (z * sqrt(Variance(p, n, z))) / (1.0 + z * z / n)
  }

  function WilsonScore(sqrt: Root, k: int, n: int, z: real): Proportion {
    if n <= 0 then Proportion(0, 0, 0.0, 0.0, 1.0, 0.5)
    else
      var p := k as real / n as real;
      var centre, half := Centre(p, n as real, z), Half(sqrt, p, n as real, z);
      Proportion(k, n, p,
                 if centre - half > 0.0 then centre - half else 0.0,
                 if centre + half < 1.0 then centre + half else 1.0,
                 half)
  }

  // ---------- arithmetic ----------

  lemma Square(x: real)
    ensures x * x >= 0.0
  {}

  lemma Positive(n: real, z: real)
    requires n > 0.0
    ensures z * z / n >= 0.0
  {
    Square(z);
  }

  lemma Regroup(x: real, y: real, n: real)
    requires n != 0.0
    ensures (x / n) * y == x * (y / n)
  {
    var u, v := x / n, y / n;
    assert u * n == x && v * n == y;
    assert u * y == u * (v * n) == (u * n) * v;
  }

  lemma ProductNotNegative(x: real, y: real)
    requires x >= 0.0 && y >= 0.0
    ensures x * y >= 0.0
  {}

  lemma ProductGrows(x: real, y: real, d: real)
    requires x <= y && d >= 0.0
    ensures x * d <= y * d
  {
    ProductNotNegative(y - x, d);
    Distribute(y, x, d);
  }

  lemma Distribute(x: real, y: real, d: real)
    ensures (x - y) * d == x * d - y * d
    ensures (x + y) * d == x * d + y * d
  {}

  lemma ProductPositive(x: real, y: real)
    requires x > 0.0 && y > 0.0
    ensures x * y > 0.0
  {}

  lemma PositiveProduct(x: real, y: real, product: real)
    requires x > 0.0 && y > 0.0 && product == x * y
    ensures product > 0.0
  {}

  lemma SquarePositive(x: real, square: real)
    requires x > 0.0 && square == x * x
    ensures square > 0.0
  {
    PositiveProduct(x, x, square);
  }

  lemma SquaresOrder(x: real, y: real)
    requires x >= 0.0 && y >= 0.0 && x * x <= y * y
    ensures x <= y
  {
    assert (x - y) * (x + y) == x * x - y * y;
    if x > y {
      ProductPositive(x - y, x + y);
    }
  }

  /** With a = z*z/n, the centre times (1 + a) is p + a/2. */
  lemma CentreScaled(p: real, n: real, z: real, a: real)
    requires n > 0.0 && a == z * z / n
    ensures a >= 0.0 && Centre(p, n, z) * (1.0 + a) == p + a / 2.0
  {
    Positive(n, z);
    assert z * z / (2.0 * n) == a / 2.0;
  }

  /** With a = z*z/n, the half-width times (1 + a) has the square a*p*(1-p) + a*a/4. */
  lemma HalfScaled(sqrt: Root, p: real, n: real, z: real, a: real)
    requires IsRoot(sqrt) && 0.0 <= p <= 1.0 && n > 0.0 && z >= 0.0 && a == z * z / n
    ensures Half(sqrt, p, n, z) >= 0.0
    ensures (Half(sqrt, p, n, z) * (1.0 + a)) * (Half(sqrt, p, n, z) * (1.0 + a)) == a * (p * (1.0 - p)) + a * a / 4.0
  {
    hide Variance, IsRoot;
    Positive(n, z);
    VarianceSplit(p, n, z);
    var r := sqrt(Variance(p, n, z));
    RootOf(sqrt, Variance(p, n, z));
    ProductNotNegative(z, r);
    NotNegativeQuotient(z * r, 1.0 + a);
    SquareOfProduct(z, r);
    TimesBack(z * r, 1.0 + a);
  }

  lemma TimesBack(x: real, d: real)
    requires d != 0.0
    ensures (x / d) * d == x
  {}

  lemma RootOf(sqrt: Root, x: real)
    requires IsRoot(sqrt) && x >= 0.0
    ensures sqrt(x) >= 0.0 && sqrt(x) * sqrt(x) == x
  {}

  lemma SquareOfProduct(x: real, y: real)
    ensures (x * y) * (x * y) == (x * x) * (y * y)
  {}

  lemma NotNegativeQuotient(x: real, y: real)
    requires x >= 0.0 && y > 0.0
    ensures x / y >= 0.0
  {}

  lemma QuarterOfQuotient(y: real, n: real)
    requires n > 0.0
    ensures y / (4.0 * n * n) == y / n / n / 4.0
  {
    var a := y / n;
    var b := a / n;
    assert a * n == y && b * n == a;
    SquarePositive(n, n * n);
    assert b / 4.0 * (4.0 * n * n) == (b * n) * n by {
      assert b / 4.0 * (4.0 * n * n) == (b / 4.0 * (4.0 * n)) * n;
    }
    assert (b * n) * n == a * n;
    assert 4.0 * n * n == 4.0 * (n * n);
    DivideBack(y, 4.0 * n * n, b / 4.0);
  }

  lemma DivideBack(y: real, d: real, x: real)
    requires d != 0.0 && x * d == y
    ensures y / d == x
  {}

  lemma VarianceSplit(p: real, n: real, z: real)
    requires 0.0 <= p <= 1.0 && n > 0.0
    ensures var a := z * z / n;
            (z * z) * Variance(p, n, z) == a * (p * (1.0 - p)) + a * a / 4.0 && Variance(p, n, z) >= 0.0
  {
    var y, q := z * z, p * (1.0 - p);
    var a := y / n;
    Square(z);
    ProductNotNegative(p, 1.0 - p);
    NotNegativeQuotient(q, n);
    Regroup(q, y, n);
    assert (q / n) * y == q * a;
    QuarterOfQuotient(y, n);
    NotNegativeQuotient(a, n);
    Regroup(a, y, n);
    assert (a / n) * y == a * a;
  }

  // ---------- the interval ----------

  lemma ScaledOrder(x: real, y: real, d: real)
    requires d > 0.0 && x * d <= y * d
    ensures x <= y
  {
    Distribute(x, y, d);
    if x > y {
      ProductPositive(x - y, d);
    }
  }

  /** The scaled half-width against the two sides of the interval. */
  lemma ScaledBounds(p: real, a: real, s: real)
    requires 0.0 <= p <= 1.0 && a >= 0.0 && s >= 0.0 && s * s == a * (p * (1.0 - p)) + a * a / 4.0
    ensures s <= p + a / 2.0 && a / 2.0 - a * p <= s
  {
    var q := p * (1.0 - p);
    ProductNotNegative(p, 1.0 - p);
    ProductNotNegative(a, q);
    var top := p + a / 2.0;
    assert top * top == s * s + (p * p + (p * p) * a) by {
      assert top * top == p * p + p * a + a * a / 4.0;
      assert a * q == a * p - (p * p) * a;
    }
    Square(p);
    ProductNotNegative(p * p, a);
    SquaresOrder(s, top);
    if p < 0.5 {
      var t := a / 2.0 - a * p;
      ProductNotNegative(a, 0.5 - p);
      assert t == a * (0.5 - p);
      assert t * t == a * a / 4.0 - a * (a * q) by {
        assert t * t == a * a / 4.0 - (a * a) * p + (a * a) * (p * p);
        assert a * (a * q) == (a * a) * p - (a * a) * (p * p);
      }
      ProductNotNegative(a, a * q);
      SquaresOrder(t, s);
    } else {
      ProductNotNegative(a, p - 0.5);
      assert a * (p - 0.5) == a * p - a / 2.0;
    }
  }

  lemma LowerSide(p: real, a: real, c: real, h: real)
    requires 0.0 <= p <= 1.0 && a >= 0.0 && h >= 0.0 && c * (1.0 + a) == p + a / 2.0
    requires (h * (1.0 + a)) * (h * (1.0 + a)) == a * (p * (1.0 - p)) + a * a / 4.0
    ensures 0.0 <= c - h <= p
  {
    var d, s := 1.0 + a, h * (1.0 + a);
    ProductNotNegative(h, d);
    ScaledBounds(p, a, s);
    Distribute(c, h, d);
    Widen(p, a);
    BelowWhenScaled(0.0, c - h, d, 0.0, p + a / 2.0 - s);
    BelowWhenScaled(c - h, p, d, p + a / 2.0 - s, p + a * p);
  }

  lemma BelowWhenScaled(x: real, y: real, d: real, xd: real, yd: real)
    requires d > 0.0 && x * d == xd && y * d == yd && xd <= yd
    ensures x <= y
  {
    ScaledOrder(x, y, d);
  }

  lemma BoundsFromScaled(p: real, a: real, c: real, h: real)
    requires 0.0 <= p <= 1.0 && a >= 0.0 && h >= 0.0 && c * (1.0 + a) == p + a / 2.0
    requires (h * (1.0 + a)) * (h * (1.0 + a)) == a * (p * (1.0 - p)) + a * a / 4.0
    ensures 0.0 <= c - h <= p <= c + h <= 1.0
  {
    LowerSide(p, a, c, h);
    MirrorVariance(p);
    Distribute(1.0, c, 1.0 + a);
    LowerSide(1.0 - p, a, 1.0 - c, h);
  }

  lemma MirrorVariance(p: real)
    ensures (1.0 - p) * (1.0 - (1.0 - p)) == p * (1.0 - p)
  {}

  lemma Widen(p: real, a: real)
    ensures p * (1.0 + a) == p + a * p
  {}

  lemma ShareInRange(k: int, n: int)
    requires 0 <= k <= n && n > 0
    ensures 0.0 <= k as real / n as real <= 1.0
  {
    var x, m := k as real / n as real, n as real;
    assert x * m == k as real;
    ScaledOrder(0.0, x, m);
    ScaledOrder(x, 1.0, m);
  }

  /** For 0 <= k <= n the interval lies inside [0, 1], contains k/n, and the clamps never take effect. */
  lemma IntervalIsSound(sqrt: Root, k: int, n: int, z: real)
    requires IsRoot(sqrt) && 0 <= k <= n && n > 0 && z >= 0.0
    ensures var w := WilsonScore(sqrt, k, n, z);
            var centre, half := Centre(w.p, n as real, z), Half(sqrt, w.p, n as real, z);
            && w.low == centre - half && w.high == centre + half && w.halfWidth == half
            && 0.0 <= w.low <= w.p <= w.high <= 1.0
  {
    ShareInRange(k, n);
    var m, p := n as real, k as real / n as real;
    CentreScaled(p, m, z, z * z / m);
    HalfScaled(sqrt, p, m, z, z * z / m);
    BoundsFromScaled(p, z * z / m, Centre(p, m, z), Half(sqrt, p, m, z));
    hide Centre, Half, IsRoot;
  }

  /** The product of the two end points, times (1 + a), is p squared. */
  lemma EndPointsProduct(p: real, a: real, c: real, h: real)
    requires a >= 0.0 && c * (1.0 + a) == p + a / 2.0
    requires (h * (1.0 + a)) * (h * (1.0 + a)) == a * (p * (1.0 - p)) + a * a / 4.0
    ensures (c * c - h * h) * (1.0 + a) == p * p
  {
    var d := 1.0 + a;
    SquareOfProduct(c, d);
    SquareOfProduct(h, d);
    Distribute(c * c, h * h, d * d);
    var y := (c * c - h * h) * d;
    assert y * d == (c * c - h * h) * (d * d);
    assert (p + a / 2.0) * (p + a / 2.0) == p * p + p * a + a * a / 4.0;
    assert a * (p * (1.0 - p)) == p * a - (p * p) * a;
    assert (p * p) * d == p * p + (p * p) * a;
    BelowWhenScaled(y, p * p, d, (p * p) * d, (p * p) * d);
    BelowWhenScaled(p * p, y, d, (p * p) * d, (p * p) * d);
  }

  /** The score test's quadratic in x, completed to a square around the centre. */
  lemma ScoreQuadratic(p: real, a: real, c: real, h: real, x: real)
    requires a >= 0.0 && c * (1.0 + a) == p + a / 2.0 && (c * c - h * h) * (1.0 + a) == p * p
    ensures (x - p) * (x - p) - a * (x * (1.0 - x)) == ((x - c) * (x - c) - h * h) * (1.0 + a)
  {
    var d := 1.0 + a;
    var r := c * c - h * h;
    assert (x - c) * (x - c) - h * h == x * x - 2.0 * (c * x) + r;
    assert (x * x - 2.0 * (c * x) + r) * d == (x * x) * d - 2.0 * ((c * d) * x) + r * d;
    assert (c * d) * x == p * x + a * x / 2.0;
    assert (x * x) * d == x * x + (x * x) * a;
    assert a * (x * (1.0 - x)) == a * x - (x * x) * a;
    assert (x - p) * (x - p) == x * x - 2.0 * (p * x) + p * p;
  }

  lemma WithinIsSquare(u: real, h: real)
    requires h >= 0.0
    ensures -h <= u <= h <==> u * u <= h * h
  {
    if -h <= u <= h {
      if u >= 0.0 {
        LargerSquare(u, h);
      } else {
        LargerSquare(-u, h);
        assert (-u) * (-u) == u * u;
      }
    }
    if u * u <= h * h {
      if u >= 0.0 {
        SquaresOrder(u, h);
      } else {
        assert (-u) * (-u) == u * u;
        SquaresOrder(-u, h);
      }
    }
  }

  lemma SameSign(y: real, d: real)
    requires d > 0.0
    ensures y * d <= 0.0 <==> y <= 0.0
  {
    if y <= 0.0 {
      ProductNotNegative(-y, d);
      assert (-y) * d == -(y * d);
    } else {
      ProductPositive(y, d);
    }
  }

  lemma InvertsFromScaled(p: real, a: real, c: real, h: real, x: real)
    requires a >= 0.0 && h >= 0.0 && c * (1.0 + a) == p + a / 2.0
    requires (h * (1.0 + a)) * (h * (1.0 + a)) == a * (p * (1.0 - p)) + a * a / 4.0
    ensures c - h <= x <= c + h <==> (x - p) * (x - p) <= a * (x * (1.0 - x))
  {
    EndPointsProduct(p, a, c, h);
    ScoreQuadratic(p, a, c, h, x);
    SameSign((x - c) * (x - c) - h * h, 1.0 + a);
    WithinIsSquare(x - c, h);
  }

  /**
    The interval is what a Wilson interval is by definition: the proportions x whose score test does not reject,
    (x - k/n)^2 <= z^2 * x * (1 - x) / n.
   */
  lemma IntervalInvertsScoreTest(sqrt: Root, k: int, n: int, z: real, x: real)
    requires IsRoot(sqrt) && 0 <= k <= n && n > 0 && z >= 0.0
    ensures var w := WilsonScore(sqrt, k, n, z);
            w.low <= x <= w.high <==> (x - w.p) * (x - w.p) <= (z * z / n as real) * (x * (1.0 - x))
  {
    hide Centre, Half, IsRoot, WilsonScore;
    IntervalIsSound(sqrt, k, n, z);
    ScoredShare(sqrt, k, n, z);
    ShareInRange(k, n);
    var m, p := n as real, WilsonScore(sqrt, k, n, z).p;
    PartsInvert(sqrt, p, m, z, x);
  }

  lemma PartsInvert(sqrt: Root, p: real, m: real, z: real, x: real)
    requires IsRoot(sqrt) && 0.0 <= p <= 1.0 && m > 0.0 && z >= 0.0
    ensures var c, h := Centre(p, m, z), Half(sqrt, p, m, z);
            c - h <= x <= c + h <==> (x - p) * (x - p) <= (z * z / m) * (x * (1.0 - x))
  {
    hide Centre, Half, IsRoot;
    var a := z * z / m;
    CentreScaled(p, m, z, a);
    HalfScaled(sqrt, p, m, z, a);
    InvertsFromScaled(p, a, Centre(p, m, z), Half(sqrt, p, m, z), x);
  }

  lemma ScoredShare(sqrt: Root, k: int, n: int, z: real)
    requires n > 0
    ensures WilsonScore(sqrt, k, n, z).p == k as real / n as real
  {}

  /** Counting failures instead of successes mirrors the interval. */
  lemma IntervalIsMirrored(sqrt: Root, k: int, n: int, z: real)
    requires IsRoot(sqrt) && 0 <= k <= n && n > 0 && z >= 0.0
    ensures var w, v := WilsonScore(sqrt, k, n, z), WilsonScore(sqrt, n - k, n, z);
            v.p == 1.0 - w.p && v.low == 1.0 - w.high && v.high == 1.0 - w.low && v.halfWidth == w.halfWidth
  {
    IntervalIsSound(sqrt, k, n, z);
    IntervalIsSound(sqrt, n - k, n, z);
    ShareInRange(k, n);
    ShareOfRest(k, n);
    var m, p := n as real, k as real / n as real;
    var other := (n - k) as real / m;
    MirroredParts(sqrt, p, m, z);
    hide Centre, Half, IsRoot;
  }

  lemma ShareOfRest(k: int, n: int)
    requires 0 <= k <= n && n > 0
    ensures (n - k) as real / n as real == 1.0 - k as real / n as real
  {
    var m := n as real;
    var x := k as real / m;
    assert x * m == k as real;
    Distribute(1.0, x, m);
    DivideBack((n - k) as real, m, 1.0 - x);
  }

  lemma MirroredParts(sqrt: Root, p: real, m: real, z: real)
    requires IsRoot(sqrt) && 0.0 <= p <= 1.0 && m > 0.0 && z >= 0.0
    ensures Centre(1.0 - p, m, z) == 1.0 - Centre(p, m, z) && Half(sqrt, 1.0 - p, m, z) == Half(sqrt, p, m, z)
  {
    var a := z * z / m;
    MirrorVariance(p);
    CentreScaled(p, m, z, a);
    CentreScaled(1.0 - p, m, z, a);
    SumsToOne(Centre(p, m, z), Centre(1.0 - p, m, z), 1.0 + a, p + a / 2.0, 1.0 - p + a / 2.0);
    assert Variance(1.0 - p, m, z) == Variance(p, m, z);
  }

  lemma SumsToOne(c: real, e: real, d: real, x: real, y: real)
    requires d > 0.0 && c * d == x && e * d == y && x + y == d
    ensures e == 1.0 - c
  {
    Distribute(c, e, d);
    BelowWhenScaled(c + e, 1.0, d, x + y, d);
    BelowWhenScaled(1.0, c + e, d, d, x + y);
  }

  /** With a = z*z/n, the square of the half-width grows strictly with a. */
  lemma SquareGrows(q: real, a: real, b: real)
    requires 0.0 <= q <= 0.25 && 0.0 < a < b
    ensures (a * q + a * a / 4.0) * ((1.0 + b) * (1.0 + b)) < (b * q + b * b / 4.0) * ((1.0 + a) * (1.0 + a))
  {
    var ab := a * b;
    assert ab > 0.0;
    var first := b * ((1.0 + a) * (1.0 + a)) - a * ((1.0 + b) * (1.0 + b));
    var second := b * b * ((1.0 + a) * (1.0 + a)) - a * a * ((1.0 + b) * (1.0 + b));
    assert first == (b - a) * (1.0 - ab);
    assert second == (b - a) * (a + b + 2.0 * ab);
    var gain := q * (1.0 - ab) + (a + b + 2.0 * ab) / 4.0;
    assert q * ab <= 0.25 * ab;
    assert gain > 0.0;
    calc {
      (b * q + b * b / 4.0) * ((1.0 + a) * (1.0 + a)) - (a * q + a * a / 4.0) * ((1.0 + b) * (1.0 + b));
      q * first + second / 4.0;
      q * ((b - a) * (1.0 - ab)) + (b - a) * (a + b + 2.0 * ab) / 4.0;
      (b - a) * gain;
    }
    assert (b - a) * gain > 0.0;
  }

  lemma ProportionVariance(p: real)
    requires 0.0 <= p <= 1.0
    ensures 0.0 <= p * (1.0 - p) <= 0.25
  {
    ProductNotNegative(p, 1.0 - p);
    Square(p - 0.5);
    assert (p - 0.5) * (p - 0.5) == 0.25 - p * (1.0 - p);
  }

  /** The square of the half-width times (1 + a)^2. */
  function Spread(q: real, a: real): real {
    a * q + a * a / 4.0
  }

  predicate HasSquare(h: real, c: real, square: real) {
    (h * c) * (h * c) == square
  }

  predicate Outgrows(u: real, c: real, v: real, d: real) {
    u * (d * d) < v * (c * c)
  }

  lemma HalfHasSquare(sqrt: Root, p: real, n: real, z: real, a: real)
    requires IsRoot(sqrt) && 0.0 <= p <= 1.0 && n > 0.0 && z >= 0.0 && a == z * z / n
    ensures Half(sqrt, p, n, z) >= 0.0 && HasSquare(Half(sqrt, p, n, z), 1.0 + a, Spread(p * (1.0 - p), a))
  {
    HalfScaled(sqrt, p, n, z, a);
    hide Half, IsRoot;
  }

  lemma SpreadGrows(q: real, a: real, b: real)
    requires 0.0 <= q <= 0.25 && 0.0 < a < b
    ensures Outgrows(Spread(q, a), 1.0 + a, Spread(q, b), 1.0 + b)
  {
    SquareGrows(q, a, b);
  }

  /** At a fixed proportion the half-width falls strictly as the sample grows. */
  lemma HalfWidthFalls(sqrt: Root, p: real, n: nat, m: nat, z: real)
    requires IsRoot(sqrt) && 0.0 <= p <= 1.0 && 0 < n < m && z > 0.0
    ensures Half(sqrt, p, m as real, z) < Half(sqrt, p, n as real, z)
  {
    hide Half, IsRoot, Spread, HasSquare, Outgrows;
    var k, l := n as real, m as real;
    var q, a, b := p * (1.0 - p), z * z / l, z * z / k;
    SquarePositive(z, z * z);
    SmallerShare(z * z, k, l);
    ProportionVariance(p);
    HalfHasSquare(sqrt, p, l, z, a);
    HalfHasSquare(sqrt, p, k, z, b);
    SpreadGrows(q, a, b);
    SmallerWhenOutgrown(Half(sqrt, p, l, z), Half(sqrt, p, k, z), 1.0 + a, 1.0 + b, Spread(q, a), Spread(q, b));
  }

  lemma SmallerWhenOutgrown(g: real, h: real, c: real, d: real, u: real, v: real)
    requires g >= 0.0 && h >= 0.0 && c > 0.0 && d > 0.0
    requires HasSquare(g, c, u) && HasSquare(h, d, v) && Outgrows(u, c, v, d)
    ensures g < h
  {
    SmallerSquare(g, h, c, d, u, v);
  }

  /** From the squares scaled by c and d back to the values. */
  lemma SmallerSquare(g: real, h: real, c: real, d: real, u: real, v: real)
    requires g >= 0.0 && h >= 0.0 && c > 0.0 && d > 0.0
    requires (g * c) * (g * c) == u && (h * d) * (h * d) == v && u * (d * d) < v * (c * c)
    ensures g < h
  {
    var x, y := (g * c) * d, (h * d) * c;
    SquareOfProduct(g * c, d);
    SquareOfProduct(h * d, c);
    assert x * x < y * y;
    ProductNotNegative(g, c);
    ProductNotNegative(g * c, d);
    ProductNotNegative(h, d);
    ProductNotNegative(h * d, c);
    ProductPositive(c, d);
    if g >= h {
      ProductGrows(h, g, c * d);
      LargerSquare(y, x);
    }
  }

  lemma LargerSquare(x: real, y: real)
    requires 0.0 <= x <= y
    ensures x * x <= y * y
  {
    ProductGrows(x, y, x);
    ProductGrows(x, y, y);
  }

  lemma SmallerShare(x: real, n: real, m: real)
    requires x > 0.0 && 0.0 < n < m
    ensures 0.0 < x / m < x / n
  {
    var u, v := x / m, x / n;
    assert u * m == x && v * n == x;
  }

  // ---------- sample size ----------

  const CAP := 100_000

  /** `Math.ceil(n * 1.2) + 1` */
  function NextSize(n: nat): nat {
    (6 * n + 4) / 5 + 1
  }

  /** `Math.round` */
  function Round(x: real): int {
    (x + 0.5).Floor
  }

  /** The next size is one more than the least integer that is at least 1.2 times as large. */
  lemma NextSizeIsExact(n: nat)
    ensures var ceiling := NextSize(n) - 1;
            ceiling as real >= 1.2 * n as real && (ceiling - 1) as real < 1.2 * n as real
  {}

  /** The nearest integer, halves upwards. */
  lemma RoundIsNearest(x: real)
    ensures Round(x) as real - 0.5 <= x < Round(x) as real + 0.5
  {}

  /** Without samples nothing is known: share 0, the whole of [0, 1] as interval. */
  lemma NoSamplesKnowNothing(sqrt: Root, k: int, n: int, z: real)
    requires n <= 0
    ensures var w := WilsonScore(sqrt, k, n, z);
            w.k == 0 && w.n == 0 && w.p == 0.0 && w.low == 0.0 && w.high == 1.0 && w.high - w.low == 2.0 * w.halfWidth
  {}

  /** The half-width is still too large at this sample size. */
  predicate TooWide(sqrt: Root, p: real, halfWidth: real, z: real, n: nat) {
    WilsonScore(sqrt, Round(p * n as real), n, z).halfWidth > halfWidth
  }

  /**
    The sizes tried grow by a fifth plus one until the target is met or the cap is passed; the answer is at most
    120,000, and every smaller size in the series was too wide.
   */
  method SamplesForHalfWidth(sqrt: Root, p: real, halfWidth: real, z: real) returns (n: nat, ghost tried: seq<nat>)
    ensures 1 <= n <= 120_000
    ensures !TooWide(sqrt, p, halfWidth, z, n) || n >= 100_000
    ensures tried != [] ==> tried[0] == 1
    ensures n == if tried == [] then 1 else NextSize(tried[|tried| - 1])
    ensures forall i :: 0 <= i < |tried| ==> TooWide(sqrt, p, halfWidth, z, tried[i]) && tried[i] < 100_000
    ensures forall i :: 0 <= i < |tried| - 1 ==> tried[i + 1] == NextSize(tried[i])
  {
    n := 1;
    tried := [];
    while TooWide(sqrt, p, halfWidth, z, n) && n < CAP
      invariant 1 <= n <= 120_000
      invariant tried != [] ==> tried[0] == 1
      invariant n == if tried == [] then 1 else NextSize(tried[|tried| - 1])
      invariant forall i :: 0 <= i < |tried| ==> TooWide(sqrt, p, halfWidth, z, tried[i]) && tried[i] < CAP
      invariant forall i :: 0 <= i < |tried| - 1 ==> tried[i + 1] == NextSize(tried[i])
      decreases CAP - n
    {
      tried := tried + [n];
      n := NextSize(n);
    }
  }

  lemma RoundedCountIsValid(p: real, n: nat)
    requires 0.0 <= p <= 1.0
    ensures 0 <= Round(p * n as real) <= n
  {
    assert 0.0 <= p * n as real <= n as real;
  }

  /** A size that meets the target gives a sound interval around the rounded share, at most twice the target wide. */
  lemma MetTargetIsSound(sqrt: Root, p: real, halfWidth: real, z: real, n: nat)
    requires IsRoot(sqrt) && 0.0 <= p <= 1.0 && z >= 0.0 && n > 0
    requires !TooWide(sqrt, p, halfWidth, z, n)
    ensures var w := WilsonScore(sqrt, Round(p * n as real), n, z);
            0.0 <= w.low <= w.p <= w.high <= 1.0 && w.high - w.low <= 2.0 * halfWidth
  {
    hide Half, Centre, IsRoot;
    RoundedCountIsValid(p, n);
    IntervalIsSound(sqrt, Round(p * n as real), n, z);
  }

  /** The half-width is at most z / (2 sqrt(n)), whatever the proportion. */
  lemma HalfWidthBound(sqrt: Root, p: real, n: real, z: real)
    requires IsRoot(sqrt) && 0.0 <= p <= 1.0 && n > 0.0 && z >= 0.0
    ensures Half(sqrt, p, n, z) >= 0.0
    ensures 4.0 * (Half(sqrt, p, n, z) * Half(sqrt, p, n, z)) * n <= z * z
  {
    hide Half, IsRoot;
    var a, h := z * z / n, Half(sqrt, p, n, z);
    Positive(n, z);
    HalfScaled(sqrt, p, n, z, a);
    ProportionVariance(p);
    SquareOfProduct(h, 1.0 + a);
    Square(h);
    var q, square := p * (1.0 - p), h * h;
    ProductGrows(q, 0.25, a);
    assert square * ((1.0 + a) * (1.0 + a)) <= a / 4.0 * (1.0 + a) by {
      assert a / 4.0 * (1.0 + a) == 0.25 * a + a * a / 4.0;
    }
    QuarterBound(square, a);
    ProductGrows(4.0 * square, a, n);
    TimesBack(z * z, n);
  }

  lemma QuarterBound(square: real, a: real)
    requires square >= 0.0 && a >= 0.0 && square * ((1.0 + a) * (1.0 + a)) <= a / 4.0 * (1.0 + a)
    ensures 4.0 * square <= a
  {
    var c := 1.0 + a;
    assert square * (c * c) == (square * c) * c;
    ScaledOrder(square * c, a / 4.0, c);
    ProductNotNegative(square, a);
    assert square * c == square + square * a;
  }

  /** Every size n with 4 n halfWidth^2 >= z^2 meets the target, so no size tried before the answer is that large. */
  lemma EnoughSamplesMeetTarget(sqrt: Root, p: real, halfWidth: real, z: real, n: nat)
    requires IsRoot(sqrt) && 0.0 <= p <= 1.0 && z >= 0.0 && n > 0 && halfWidth >= 0.0
    requires 4.0 * (halfWidth * halfWidth) * n as real >= z * z
    ensures !TooWide(sqrt, p, halfWidth, z, n)
  {
    hide Half, Centre, IsRoot;
    RoundedCountIsValid(p, n);
    var k := Round(p * n as real);
    ShareInRange(k, n);
    var m := n as real;
    var half := Half(sqrt, k as real / m, m, z);
    HalfWidthBound(sqrt, k as real / m, m, z);
    if half > halfWidth {
      StrictlyLarger(halfWidth, half, m);
    }
  }

  lemma StrictlyLarger(x: real, y: real, m: real)
    requires 0.0 <= x < y && m > 0.0
    ensures 4.0 * (x * x) * m < 4.0 * (y * y) * m
  {
    assert (y - x) * (y + x) == y * y - x * x;
    ProductPositive(y - x, y + x);
    ProductPositive(4.0 * (y * y) - 4.0 * (x * x), m);
    Distribute(4.0 * (y * y), 4.0 * (x * x), m);
  }
}
