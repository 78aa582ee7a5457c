/**
  `canonicalJson` of hash.ts: keys sorted at every depth, undefined-valued keys dropped, then JSON text.
  Text is modelled as tokens; numbers and string escapes are one token each.
 */
module CanonicalJson {
  import opened Basics

  /** A JavaScript value. Objects list their keys in insertion order; a Date carries its ISO text. */
  datatype Json =
    | Null
    | Undefined
    | Bool(flag: bool)
    | Num(number: int)
    | Str(text: string)
    | Date(iso: string)
    | Arr(items: Items)
    | Obj(fields: Fields)

  datatype Items = NoItems | Item(head: Json, rest: Items)

  datatype Fields = NoFields | Field(key: string, value: Json, others: Fields)

  // ---------- objects ----------

  function Size(v: Json): nat {
    match v
    case Arr(xs) => 1 + ItemsSize(xs)
    case Obj(fs) => 1 + FieldsSize(fs)
    case _ => 0
  }

  function ItemsSize(xs: Items): nat {
    match xs
    case NoItems => 0
    case Item(x, rest) => 1 + Size(x) + ItemsSize(rest)
  }

  function FieldsSize(fs: Fields): nat {
    match fs
    case NoFields => 0
    case Field(_, v, rest) => 1 + Size(v) + FieldsSize(rest)
  }

  predicate HasKey(fs: Fields, k: string) {
    fs.Field? && (fs.key == k || HasKey(fs.others, k))
  }

  /** `obj[k]`: absent keys read as undefined. */
  function Get(fs: Fields, k: string): (v: Json)
    ensures v == Undefined || Size(v) < FieldsSize(fs)
  {
    match fs
    case NoFields => Undefined
    case Field(key, v, rest) => if key == k then v else Get(rest, k)
  }

  /** Keys are distinct at every depth, as in any JavaScript object. */
  predicate WellFormed(v: Json) {
    match v
    case Arr(xs) => WellFormedItems(xs)
    case Obj(fs) => WellFormedFields(fs)
    case _ => true
  }

  predicate WellFormedItems(xs: Items) {
    xs.Item? ==> WellFormed(xs.head) && WellFormedItems(xs.rest)
  }

  predicate WellFormedFields(fs: Fields) {
    fs.Field? ==> WellFormed(fs.value) && !HasKey(fs.others, fs.key) && WellFormedFields(fs.others)
  }

  // ---------- sortKeys ----------

  /** Code-unit order of strings, the default order of `sort()`. */
  predicate Before(a: string, b: string) {
    if b == [] then false
    else if a == [] then true
    else a[0] < b[0] || (a[0] == b[0] && Before(a[1..], b[1..]))
  }

  function Insert(k: string, v: Json, fs: Fields): Fields {
    match fs
    case NoFields => Field(k, v, NoFields)
    case Field(key, w, rest) => if Before(key, k) then Field(key, w, Insert(k, v, rest)) else Field(k, v, fs)
  }

  function SortKeys(v: Json): Json {
    match v
    case Arr(xs) => Arr(SortItems(xs))
    case Obj(fs) => Obj(SortFields(fs))
    case Date(iso) => Str(iso)
    case _ => v
  }

  function SortItems(xs: Items): Items {
    match xs
    case NoItems => NoItems
    case Item(x, rest) => Item(SortKeys(x), SortItems(rest))
  }

  function SortFields(fs: Fields): Fields {
    match fs
    case NoFields => NoFields
    case Field(k, v, rest) => if v == Undefined then SortFields(rest) else Insert(k, SortKeys(v), SortFields(rest))
  }

  /**
    Equality of values up to object key order and undefined-valued keys, at every depth.
    A date equals its ISO text, which is what it serialises to.
   */
  ghost predicate Same(a: Json, b: Json)
    decreases Size(a)
  {
    match a
    case Arr(xs) => b.Arr? && SameItems(xs, b.items)
    case Obj(fs) =>
      && b.Obj?
      && forall k: string ::
           && (Get(fs, k) == Undefined <==> Get(b.fields, k) == Undefined)
           && (Get(fs, k) != Undefined ==> Same(Get(fs, k), Get(b.fields, k)))
    case Date(iso) => b == Date(iso) || b == Str(iso)
    case Str(text) => b == Date(text) || b == Str(text)
    case _ => a == b
  }

  ghost predicate SameItems(xs: Items, ys: Items)
    decreases ItemsSize(xs)
  {
    match xs
    case NoItems => ys.NoItems?
    case Item(x, rest) => ys.Item? && Same(x, ys.head) && SameItems(rest, ys.rest)
  }

  // ---------- string order ----------

  lemma {:induction false} BeforeTotal(a: string, b: string)
    ensures Before(a, b) || Before(b, a) || a == b
  {
    if a != [] && b != [] && a[0] == b[0] {
      BeforeTotal(a[1..], b[1..]);
      assert a == [a[0]] + a[1..] && b == [b[0]] + b[1..];
    }
  }

  lemma {:induction false} BeforeAsymmetric(a: string, b: string)
    requires Before(a, b)
    ensures a != b && !Before(b, a)
  {
    if a != [] && a[0] == b[0] {
      BeforeAsymmetric(a[1..], b[1..]);
    }
  }

  lemma {:induction false} BeforeTransitive(a: string, b: string, c: string)
    requires Before(a, b) && Before(b, c)
    ensures Before(a, c)
  {
    if a != [] && a[0] == b[0] && b[0] == c[0] {
      BeforeTransitive(a[1..], b[1..], c[1..]);
    }
  }

  /** One string comes before another exactly when it is a proper beginning, or smaller where they first differ. */
  lemma {:induction false} BeforeMeans(a: string, b: string)
    ensures Before(a, b) <==>
      exists i :: 0 <= i <= |a| && i < |b| && a[..i] == b[..i] && (i == |a| || a[i] < b[i])
  {
    assert a[..0] == b[..0];
    if a != [] && b != [] && a[0] == b[0] {
      BeforeMeans(a[1..], b[1..]);
      if Before(a[1..], b[1..]) {
        var i :| 0 <= i <= |a[1..]| && i < |b[1..]| && a[1..][..i] == b[1..][..i]
          && (i == |a[1..]| || a[1..][i] < b[1..][i]);
        assert a[..i + 1] == [a[0]] + a[1..][..i] && b[..i + 1] == [b[0]] + b[1..][..i];
      }
      if i :| 0 <= i <= |a| && i < |b| && a[..i] == b[..i] && (i == |a| || a[i] < b[i]) {
        assert a[1..][..i - 1] == a[..i][1..] && b[1..][..i - 1] == b[..i][1..];
      }
    } else if i :| 0 < i <= |a| && i < |b| && a[..i] == b[..i] {
      assert a[..i][0] == b[..i][0];
    }
  }

  // ---------- sorted fields ----------

  /** Keys strictly ascending and no value undefined. */
  predicate Sorted(fs: Fields) {
    fs.Field? ==>
      && fs.value != Undefined
      && (fs.others.Field? ==> Before(fs.key, fs.others.key))
      && Sorted(fs.others)
  }

  lemma {:induction false} SortedHead(fs: Fields, k: string)
    requires Sorted(fs) && fs.Field? && (k == fs.key || Before(k, fs.key))
    ensures !HasKey(fs.others, k)
  {
    if fs.others.Field? {
      if k != fs.key {
        BeforeTransitive(k, fs.key, fs.others.key);
      }
      BeforeAsymmetric(k, fs.others.key);
      SortedHead(fs.others, k);
    }
  }

  lemma {:induction false} AbsentIsUndefined(fs: Fields, k: string)
    ensures !HasKey(fs, k) ==> Get(fs, k) == Undefined
    ensures Sorted(fs) && HasKey(fs, k) ==> Get(fs, k) != Undefined
  {
    if fs.Field? {
      AbsentIsUndefined(fs.others, k);
    }
  }

  lemma {:induction false} InsertGet(k: string, v: Json, fs: Fields, q: string)
    requires Sorted(fs) && Get(fs, k) == Undefined && v != Undefined
    ensures Sorted(Insert(k, v, fs))
    ensures Get(Insert(k, v, fs), q) == if q == k then v else Get(fs, q)
  {
    if fs.Field? {
      if Before(fs.key, k) {
        InsertGet(k, v, fs.others, q);
        BeforeAsymmetric(fs.key, k);
      } else {
        BeforeTotal(fs.key, k);
      }
    }
  }

  lemma {:induction false} SortFieldsGet(fs: Fields, q: string)
    requires WellFormedFields(fs)
    ensures Sorted(SortFields(fs))
    ensures Get(SortFields(fs), q) == SortKeys(Get(fs, q))
  {
    if fs.Field? {
      SortFieldsGet(fs.others, q);
      SortFieldsGet(fs.others, fs.key);
      AbsentIsUndefined(fs.others, fs.key);
      if fs.value != Undefined {
        InsertGet(fs.key, SortKeys(fs.value), SortFields(fs.others), q);
      }
    }
  }

  /** The keys of a canonicalised object ascend and none of its values is undefined. */
  lemma KeysAscend(v: Json)
    requires WellFormed(v) && v.Obj?
    ensures SortKeys(v).Obj? && Sorted(SortKeys(v).fields)
  {
    SortFieldsGet(v.fields, "");
  }

  /** Sorted fields are determined by what they map each key to. */
  lemma {:induction false} SortedExtensional(fs: Fields, gs: Fields)
    requires Sorted(fs) && Sorted(gs)
    requires forall k: string :: Get(fs, k) == Get(gs, k)
    ensures fs == gs
  {
    assert fs.Field? ==> Get(fs, fs.key) == Get(gs, fs.key);
    assert gs.Field? ==> Get(fs, gs.key) == Get(gs, gs.key);
    if fs.Field? && gs.Field? {
      if fs.key != gs.key {
        BeforeTotal(fs.key, gs.key);
        if Before(fs.key, gs.key) {
          SortedHead(gs, fs.key);
          AbsentIsUndefined(gs, fs.key);
          assert false;
        } else {
          SortedHead(fs, gs.key);
          AbsentIsUndefined(fs, gs.key);
          assert false;
        }
      }
      SortedHead(fs, fs.key);
      SortedHead(gs, gs.key);
      forall k: string ensures Get(fs.others, k) == Get(gs.others, k) {
        AbsentIsUndefined(fs.others, fs.key);
        AbsentIsUndefined(gs.others, gs.key);
        assert Get(fs, k) == Get(gs, k);
      }
      SortedExtensional(fs.others, gs.others);
    }
  }

  lemma {:induction false} WellFormedGet(fs: Fields, k: string)
    requires WellFormedFields(fs)
    ensures WellFormed(Get(fs, k))
  {
    if fs.Field? {
      WellFormedGet(fs.others, k);
    }
  }

  // ---------- the canonical form ----------

  /** `sortKeys` is a canonical form: equal results exactly for values that are the same up to key order. */
  lemma {:induction false} SortKeysIsCanonical(a: Json, b: Json)
    requires WellFormed(a) && WellFormed(b)
    ensures SortKeys(a) == SortKeys(b) <==> Same(a, b)
    decreases Size(a)
  {
    if a.Arr? && b.Arr? {
      SortItemsIsCanonical(a.items, b.items);
    } else if a.Obj? && b.Obj? {
      var fs, gs := a.fields, b.fields;
      forall k: string
        ensures Get(SortFields(fs), k) == SortKeys(Get(fs, k)) && Get(SortFields(gs), k) == SortKeys(Get(gs, k))
        ensures Get(fs, k) != Undefined ==>
          (SortKeys(Get(fs, k)) == SortKeys(Get(gs, k)) <==> Same(Get(fs, k), Get(gs, k)))
        ensures SortKeys(Get(fs, k)) == Undefined <==> Get(fs, k) == Undefined
        ensures SortKeys(Get(gs, k)) == Undefined <==> Get(gs, k) == Undefined
      {
        SortFieldsGet(fs, k);
        SortFieldsGet(gs, k);
        WellFormedGet(fs, k);
        WellFormedGet(gs, k);
        if Get(fs, k) != Undefined {
          SortKeysIsCanonical(Get(fs, k), Get(gs, k));
        }
      }
      SortFieldsGet(fs, "");
      SortFieldsGet(gs, "");
      if Same(a, b) {
        SortedExtensional(SortFields(fs), SortFields(gs));
      }
    }
  }

  lemma {:induction false} SortItemsIsCanonical(xs: Items, ys: Items)
    requires WellFormedItems(xs) && WellFormedItems(ys)
    ensures SortItems(xs) == SortItems(ys) <==> SameItems(xs, ys)
    decreases ItemsSize(xs)
  {
    if xs.Item? && ys.Item? {
      SortKeysIsCanonical(xs.head, ys.head);
      SortItemsIsCanonical(xs.rest, ys.rest);
    }
  }

  /** A value is canonical when its keys are sorted at every depth and nothing in it is a date or an undefined field. */
  predicate Canonical(v: Json) {
    match v
    case Arr(xs) => CanonicalItems(xs)
    case Obj(fs) => Sorted(fs) && CanonicalFields(fs)
    case Date(_) => false
    case _ => true
  }

  predicate CanonicalItems(xs: Items) {
    xs.Item? ==> Canonical(xs.head) && CanonicalItems(xs.rest)
  }

  predicate CanonicalFields(fs: Fields) {
    fs.Field? ==> Canonical(fs.value) && CanonicalFields(fs.others)
  }

  lemma {:induction false} InsertCanonical(k: string, v: Json, fs: Fields)
    requires CanonicalFields(fs) && Canonical(v)
    ensures CanonicalFields(Insert(k, v, fs))
  {
    if fs.Field? {
      InsertCanonical(k, v, fs.others);
    }
  }

  lemma {:induction false} SortKeysCanonical(v: Json)
    requires WellFormed(v)
    ensures Canonical(SortKeys(v))
    decreases v, 1
  {
    match v
    case Arr(xs) => SortItemsCanonical(xs);
    case Obj(fs) =>
      SortFieldsGet(fs, "");
      SortFieldsCanonical(fs);
    case _ =>
  }

  lemma {:induction false} SortItemsCanonical(xs: Items)
    requires WellFormedItems(xs)
    ensures CanonicalItems(SortItems(xs))
  {
    if xs.Item? {
      SortKeysCanonical(xs.head);
      SortItemsCanonical(xs.rest);
    }
  }

  lemma {:induction false} SortFieldsCanonical(fs: Fields)
    requires WellFormedFields(fs)
    ensures CanonicalFields(SortFields(fs))
  {
    if fs.Field? {
      SortFieldsCanonical(fs.others);
      SortKeysCanonical(fs.value);
      if fs.value != Undefined {
        InsertCanonical(fs.key, SortKeys(fs.value), SortFields(fs.others));
      }
    }
  }

  /** Canonical values are exactly the fixed points on the way to idempotence. */
  lemma {:induction false} CanonicalIsFixed(v: Json)
    requires Canonical(v)
    ensures SortKeys(v) == v
  {
    match v
    case Arr(xs) => CanonicalItemsFixed(xs);
    case Obj(fs) => CanonicalFieldsFixed(fs);
    case _ =>
  }

  lemma {:induction false} CanonicalItemsFixed(xs: Items)
    requires CanonicalItems(xs)
    ensures SortItems(xs) == xs
  {
    if xs.Item? {
      CanonicalIsFixed(xs.head);
      CanonicalItemsFixed(xs.rest);
    }
  }

  lemma {:induction false} CanonicalFieldsFixed(fs: Fields)
    requires CanonicalFields(fs) && Sorted(fs)
    ensures SortFields(fs) == fs
  {
    if fs.Field? {
      CanonicalIsFixed(fs.value);
      CanonicalFieldsFixed(fs.others);
      if fs.others.Field? {
        BeforeAsymmetric(fs.key, fs.others.key);
      }
    }
  }

  /** `sortKeys` is idempotent. */
  lemma SortKeysIdempotent(v: Json)
    requires WellFormed(v)
    ensures SortKeys(SortKeys(v)) == SortKeys(v)
  {
    SortKeysCanonical(v);
    CanonicalIsFixed(SortKeys(v));
  }
}
