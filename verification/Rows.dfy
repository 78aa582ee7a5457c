/** Tables as sequences of rows: selecting, transforming, and how the two relate to each other and to multisets. */
module Rows {

  /** `WHERE p`, in table order. */
  function Keep<T>(rows: seq<T>, p: T -> bool): seq<T> {
    if rows == [] then [] else (if p(rows[0]) then [rows[0]] else []) + Keep(rows[1..], p)
  }

  function Each<A, B>(rows: seq<A>, f: A -> B): (r: seq<B>)
    ensures |r| == |rows| && forall i :: 0 <= i < |rows| ==> r[i] == f(rows[i])
  {
    seq(|rows|, i requires 0 <= i < |rows| => f(rows[i]))
  }

  lemma {:induction false} KeepIn<T>(rows: seq<T>, p: T -> bool)
    ensures forall x :: x in Keep(rows, p) <==> x in rows && p(x)
  {
    if rows != [] {
      KeepIn(rows[1..], p);
      assert forall x :: x in rows <==> x == rows[0] || x in rows[1..];
    }
  }

  lemma {:induction false} KeepConcat<T>(a: seq<T>, b: seq<T>, p: T -> bool)
    ensures Keep(a + b, p) == Keep(a, p) + Keep(b, p)
  {
    if a == [] {
      assert a + b == b;
    } else {
      KeepConcat(a[1..], b, p);
      var head := if p(a[0]) then [a[0]] else [];
      assert (a + b)[1..] == a[1..] + b;
      assert Keep(a + b, p) == head + Keep(a[1..] + b, p);
      assert head + (Keep(a[1..], p) + Keep(b, p)) == (head + Keep(a[1..], p)) + Keep(b, p);
    }
  }

  lemma {:induction false} KeepAll<T>(rows: seq<T>, p: T -> bool)
    requires forall x :: x in rows ==> p(x)
    ensures Keep(rows, p) == rows
  {
    if rows != [] {
      assert rows[0] in rows;
      assert forall x :: x in rows[1..] ==> x in rows;
      KeepAll(rows[1..], p);
    }
  }

  lemma {:induction false} KeepNone<T>(rows: seq<T>, p: T -> bool)
    requires forall x :: x in rows ==> !p(x)
    ensures Keep(rows, p) == []
  {
    if rows != [] {
      assert rows[0] in rows;
      assert forall x :: x in rows[1..] ==> x in rows;
      KeepNone(rows[1..], p);
    }
  }

  /** Selecting twice is selecting by both conditions. */
  lemma {:induction false} KeepTwice<T>(rows: seq<T>, p: T -> bool, q: T -> bool, both: T -> bool)
    requires forall x :: x in rows ==> both(x) == (p(x) && q(x))
    ensures Keep(Keep(rows, p), q) == Keep(rows, both)
  {
    if rows != [] {
      assert rows[0] in rows;
      assert forall x :: x in rows[1..] ==> x in rows;
      KeepTwice(rows[1..], p, q, both);
      KeepConcat(if p(rows[0]) then [rows[0]] else [], Keep(rows[1..], p), q);
    }
  }

  /** Selecting rows and then transforming them is transforming and then selecting. */
  lemma {:induction false} EachKeep<A, B>(rows: seq<A>, f: A -> B, p: A -> bool, q: B -> bool)
    requires forall x :: x in rows ==> p(x) == q(f(x))
    ensures Each(Keep(rows, p), f) == Keep(Each(rows, f), q)
  {
    if rows != [] {
      assert rows[0] in rows;
      assert forall x :: x in rows[1..] ==> x in rows;
      EachKeep(rows[1..], f, p, q);
      assert Each(rows, f)[1..] == Each(rows[1..], f);
    }
  }

  lemma EachConcat<A, B>(a: seq<A>, b: seq<A>, f: A -> B)
    ensures Each(a + b, f) == Each(a, f) + Each(b, f)
  {}

  /** Taking one row out of the middle of a table and out of its selection. */
  lemma KeepMiddle<T>(before: seq<T>, row: T, after: seq<T>, p: T -> bool)
    ensures multiset(Keep(before + [row] + after, p))
         == multiset(if p(row) then [row] else []) + multiset(Keep(before + after, p))
  {
    KeepConcat(before, after, p);
    KeepConcat(before + [row], after, p);
    KeepConcat(before, [row], p);
    assert [row][1..] == [];
    assert Keep([row], p) == if p(row) then [row] else [];
  }

  /** Equal bags minus the same row are equal bags. */
  lemma BagMinus<T>(a: seq<T>, before: seq<T>, row: T, after: seq<T>)
    requires a != [] && a[0] == row && multiset(a) == multiset(before + [row] + after)
    ensures multiset(a[1..]) == multiset(before + after)
  {
    assert a == [a[0]] + a[1..];
    assert multiset(a[1..]) == multiset(a) - multiset{row};
    assert multiset(before + after) == multiset(before + [row] + after) - multiset{row};
  }

  /** Selection does not depend on row order. */
  lemma {:induction false} KeepBag<T>(a: seq<T>, b: seq<T>, p: T -> bool)
    requires multiset(a) == multiset(b)
    ensures multiset(Keep(a, p)) == multiset(Keep(b, p))
  {
    if a == [] {
      assert |multiset(b)| == 0;
    } else {
      assert a[0] in multiset(b);
      var j :| 0 <= j < |b| && b[j] == a[0];
      var before, after := b[..j], b[j + 1..];
      assert b == before + [b[j]] + after;
      BagMinus(a, before, b[j], after);
      KeepBag(a[1..], before + after, p);
      hide Keep;
      KeepMiddle(before, b[j], after, p);
      KeepMiddle([], a[0], a[1..], p);
      assert a == [] + [a[0]] + a[1..] && [] + a[1..] == a[1..];
    }
  }

  lemma BagConcat<T>(a: seq<T>, b: seq<T>, c: seq<T>, d: seq<T>)
    requires multiset(a) == multiset(b) && multiset(c) == multiset(d)
    ensures multiset(a + c) == multiset(b + d)
  {}

  lemma EachFirst<A, B>(rows: seq<A>, f: A -> B)
    requires rows != []
    ensures Each(rows, f) == [f(rows[0])] + Each(rows[1..], f)
  {}

  lemma EachKept<A, B>(rows: seq<A>, f: A -> B, p: A -> bool)
    requires rows != []
    ensures Each(Keep(rows, p), f) == (if p(rows[0]) then [f(rows[0])] else []) + Each(Keep(rows[1..], p), f)
  {
    if p(rows[0]) {
      EachFirst([rows[0]] + Keep(rows[1..], p), f);
    } else {
      assert Keep(rows, p) == Keep(rows[1..], p);
    }
  }

  /** Transforming a table is transforming the selected rows and the others. */
  lemma {:induction false} EachSplit<A, B>(rows: seq<A>, f: A -> B, p: A -> bool, q: A -> bool)
    requires forall x :: x in rows ==> p(x) != q(x)
    ensures multiset(Each(rows, f)) == multiset(Each(Keep(rows, p), f)) + multiset(Each(Keep(rows, q), f))
  {
    if rows != [] {
      assert rows[0] in rows;
      assert forall x :: x in rows[1..] ==> x in rows;
      EachSplit(rows[1..], f, p, q);
      EachKept(rows, f, p);
      EachKept(rows, f, q);
      EachFirst(rows, f);
      hide Keep, Each;
    }
  }
}
