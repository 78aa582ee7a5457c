/**
  JSON text at the level of tokens: `JSON.stringify` and `JSON.parse`, that parsing undoes printing, and
  what that makes of `canonicalJson`: when two texts are equal, and that stored text re-canonicalises to itself.
 */
module CanonicalText {
  import opened Basics
  import opened CanonicalJson

  datatype Token =
    | LBrace | RBrace | LBracket | RBracket | Comma | Colon
    | TNull | TTrue | TFalse | TNum(number: int) | TStr(text: string)

  type Text = seq<Token>

  // ---------- printing ----------

  /** `JSON.stringify`; undefined prints as null where it can occur (inside arrays), dates as their text. */
  function Print(v: Json): Text {
    match v
    case Null => [TNull]
    case Undefined => [TNull]
    case Bool(flag) => [if flag then TTrue else TFalse]
    case Num(number) => [TNum(number)]
    case Str(text) => [TStr(text)]
    case Date(iso) => [TStr(iso)]
    case Arr(NoItems) => [LBracket, RBracket]
    case Arr(Item(x, rest)) => [LBracket] + Print(x) + PrintItems(rest)
    case Obj(NoFields) => [LBrace, RBrace]
    case Obj(Field(k, x, rest)) => [LBrace, TStr(k), Colon] + Print(x) + PrintFields(rest)
  }

  function PrintItems(xs: Items): Text {
    match xs
    case NoItems => [RBracket]
    case Item(x, rest) => [Comma] + Print(x) + PrintItems(rest)
  }

  function PrintFields(fs: Fields): Text {
    match fs
    case NoFields => [RBrace]
    case Field(k, x, rest) => [Comma, TStr(k), Colon] + Print(x) + PrintFields(rest)
  }

  /** A text of every kind of value: {"k":[true,null,1,"s"]}. */
  lemma PrintedExample()
    ensures Print(Obj(Field("k", Arr(Item(Bool(true), Item(Undefined, Item(Num(1), Item(Date("s"), NoItems))))),
                            NoFields)))
         == [LBrace, TStr("k"), Colon, LBracket, TTrue, Comma, TNull, Comma, TNum(1), Comma, TStr("s"), RBracket,
             RBrace]
  {
    assert Print(Bool(true)) == [TTrue] && Print(Undefined) == [TNull] && Print(Num(1)) == [TNum(1)];
    assert PrintItems(Item(Date("s"), NoItems)) == [Comma, TStr("s"), RBracket];
  }

  // ---------- parsing ----------

  datatype Parsed<+T> = Bad | Ok(value: T, rest: Text)

  function Without(fs: Fields, k: string): Fields {
    match fs
    case NoFields => NoFields
    case Field(key, v, rest) => if key == k then Without(rest, k) else Field(key, v, Without(rest, k))
  }

  /** One more field in front: a repeated key keeps its first place and its last value, as in `JSON.parse`. */
  function Put(k: string, v: Json, fs: Fields): Fields {
    if HasKey(fs, k) then Field(k, Get(fs, k), Without(fs, k)) else Field(k, v, fs)
  }

  function ParseValue(ts: Text): (r: Parsed<Json>)
    ensures r.Ok? ==> |r.rest| < |ts|
    decreases |ts|, 1
  {
    if ts == [] then Bad
    else
      match ts[0]
      case TNull => Ok(Null, ts[1..])
      case TTrue => Ok(Bool(true), ts[1..])
      case TFalse => Ok(Bool(false), ts[1..])
      case TNum(n) => Ok(Num(n), ts[1..])
      case TStr(s) => Ok(Str(s), ts[1..])
      case LBracket =>
        if |ts| >= 2 && ts[1] == RBracket then Ok(Arr(NoItems), ts[2..])
        else
          var first := ParseValue(ts[1..]);
          if first.Bad? then Bad
          else
            var more := ParseItems(first.rest);
            if more.Bad? then Bad else Ok(Arr(Item(first.value, more.value)), more.rest)
      case LBrace =>
        if |ts| >= 2 && ts[1] == RBrace then Ok(Obj(NoFields), ts[2..])
        else if |ts| >= 3 && ts[1].TStr? && ts[2] == Colon then
          var first := ParseValue(ts[3..]);
          if first.Bad? then Bad
          else
            var more := ParseFields(first.rest);
            if more.Bad? then Bad else Ok(Obj(Put(ts[1].text, first.value, more.value)), more.rest)
        else Bad
      case _ => Bad
  }

  function ParseItems(ts: Text): (r: Parsed<Items>)
    ensures r.Ok? ==> |r.rest| < |ts|
    decreases |ts|, 0
  {
    if ts == [] then Bad
    else if ts[0] == RBracket then Ok(NoItems, ts[1..])
    else if ts[0] == Comma then
      var x := ParseValue(ts[1..]);
      if x.Bad? then Bad
      else
        var more := ParseItems(x.rest);
        if more.Bad? then Bad else Ok(Item(x.value, more.value), more.rest)
    else Bad
  }

  function ParseFields(ts: Text): (r: Parsed<Fields>)
    ensures r.Ok? ==> |r.rest| < |ts|
    decreases |ts|, 0
  {
    if ts == [] then Bad
    else if ts[0] == RBrace then Ok(NoFields, ts[1..])
    else if |ts| >= 3 && ts[0] == Comma && ts[1].TStr? && ts[2] == Colon then
      var x := ParseValue(ts[3..]);
      if x.Bad? then Bad
      else
        var more := ParseFields(x.rest);
        if more.Bad? then Bad else Ok(Put(ts[1].text, x.value, more.value), more.rest)
    else Bad
  }

  /** `JSON.parse`: the whole text must be one value. */
  function Parse(ts: Text): Option<Json> {
    var r := ParseValue(ts);
    if r.Ok? && r.rest == [] then Some(r.value) else None
  }

  // ---------- parsing undoes printing ----------

  /** What a value becomes when it is written and read back. */
  function Wire(v: Json): Json {
    match v
    case Undefined => Null
    case Date(iso) => Str(iso)
    case Arr(xs) => Arr(WireItems(xs))
    case Obj(fs) => Obj(WireFields(fs))
    case _ => v
  }

  function WireItems(xs: Items): Items {
    match xs
    case NoItems => NoItems
    case Item(x, rest) => Item(Wire(x), WireItems(rest))
  }

  function WireFields(fs: Fields): Fields {
    match fs
    case NoFields => NoFields
    case Field(k, x, rest) => Put(k, Wire(x), WireFields(rest))
  }

  lemma {:induction false} ParsePrint(v: Json, rest: Text)
    ensures ParseValue(Print(v) + rest) == Ok(Wire(v), rest)
    decreases v, 2
  {
    match v
    case Arr(Item(x, more)) => ParsePrintArray(x, more, rest);
    case Obj(Field(k, x, more)) => ParsePrintObject(k, x, more, rest);
    case Arr(NoItems) => assert (Print(v) + rest)[2..] == rest;
    case Obj(NoFields) => assert (Print(v) + rest)[2..] == rest;
    case _ => assert (Print(v) + rest)[1..] == rest;
  }

  lemma ParseArray(ts: Text, first: Text, x: Json, tail: Text, more: Items, rest: Text)
    requires ts == [LBracket] + first + tail && first != [] && first[0] != RBracket
    requires ParseValue(first + tail) == Ok(x, tail) && ParseItems(tail) == Ok(more, rest)
    ensures ParseValue(ts) == Ok(Arr(Item(x, more)), rest)
  {
    hide ParseItems;
    assert ts[1] == first[0];
    assert ts[1..] == first + tail;
  }

  lemma Reassociate(a: Text, b: Text, c: Text)
    ensures (a + b) + c == a + (b + c)
  {}

  lemma {:induction false} ParsePrintArray(x: Json, more: Items, rest: Text)
    ensures ParseValue(Print(Arr(Item(x, more))) + rest) == Ok(Wire(Arr(Item(x, more))), rest)
    decreases Arr(Item(x, more)), 1
  {
    hide ParseValue, ParseItems, PrintItems;
    PrintStart(x);
    ParsePrint(x, PrintItems(more) + rest);
    ParsePrintItems(more, rest);
    var ts := Print(Arr(Item(x, more))) + rest;
    Reassociate([LBracket] + Print(x), PrintItems(more), rest);
    ParseArray(ts, Print(x), Wire(x), PrintItems(more) + rest, WireItems(more), rest);
  }

  lemma {:induction false} ParsePrintObject(k: string, x: Json, more: Fields, rest: Text)
    ensures ParseValue(Print(Obj(Field(k, x, more))) + rest) == Ok(Wire(Obj(Field(k, x, more))), rest)
    decreases Obj(Field(k, x, more)), 1
  {
    hide ParseValue, ParseFields, PrintFields;
    ParsePrint(x, PrintFields(more) + rest);
    ParsePrintFields(more, rest);
    var ts := Print(Obj(Field(k, x, more))) + rest;
    Reassociate([LBrace, TStr(k), Colon] + Print(x), PrintFields(more), rest);
    ParseObject(ts, k, Print(x), Wire(x), PrintFields(more) + rest, WireFields(more), rest);
  }

  lemma ParseObject(ts: Text, k: string, first: Text, x: Json, tail: Text, more: Fields, rest: Text)
    requires ts == [LBrace, TStr(k), Colon] + first + tail
    requires ParseValue(first + tail) == Ok(x, tail) && ParseFields(tail) == Ok(more, rest)
    ensures ParseValue(ts) == Ok(Obj(Put(k, x, more)), rest)
  {
    hide Put, ParseFields;
    assert ts[0] == LBrace && ts[1] == TStr(k) && ts[2] == Colon;
    assert ts[3..] == first + tail by {
      hide ParseValue;
    }
  }

  lemma PrintStart(v: Json)
    ensures |Print(v)| > 0 && Print(v)[0] != RBracket
  {}

  lemma {:induction false} ParsePrintItems(xs: Items, rest: Text)
    ensures ParseItems(PrintItems(xs) + rest) == Ok(WireItems(xs), rest)
    decreases xs, 0
  {
    hide ParseValue, Print;
    var ts := PrintItems(xs) + rest;
    match xs
    case NoItems => assert ts[1..] == rest;
    case Item(x, more) =>
      assert ts[1..] == Print(x) + (PrintItems(more) + rest);
      ParsePrint(x, PrintItems(more) + rest);
      ParsePrintItems(more, rest);
  }

  lemma {:induction false} ParsePrintFields(fs: Fields, rest: Text)
    ensures ParseFields(PrintFields(fs) + rest) == Ok(WireFields(fs), rest)
    decreases fs, 0
  {
    hide ParseValue, Put, Print;
    var ts := PrintFields(fs) + rest;
    match fs
    case NoFields => assert ts[1..] == rest;
    case Field(k, x, more) =>
      assert ts[3..] == Print(x) + (PrintFields(more) + rest);
      ParsePrint(x, PrintFields(more) + rest);
      ParsePrintFields(more, rest);
  }

  // ---------- canonicalJson ----------

  function CanonicalTextOf(v: Json): Text {
    Print(SortKeys(v))
  }

  lemma {:induction false} WireKeys(fs: Fields, k: string)
    ensures HasKey(WireFields(fs), k) <==> HasKey(fs, k)
  {
    if fs.Field? {
      WireKeys(fs.others, k);
      WireKeys(fs.others, fs.key);
      WithoutKeys(WireFields(fs.others), fs.key, k);
    }
  }

  lemma {:induction false} WithoutKeys(fs: Fields, k: string, q: string)
    ensures HasKey(Without(fs, k), q) <==> HasKey(fs, q) && q != k
  {
    if fs.Field? {
      WithoutKeys(fs.others, k, q);
    }
  }

  /** Sorted fields have no repeated key for the wire to merge. */
  lemma WireSorted(fs: Fields)
    requires Sorted(fs) && fs.Field?
    ensures WireFields(fs) == Field(fs.key, Wire(fs.value), WireFields(fs.others))
  {
    SortedHead(fs, fs.key);
    WireKeys(fs.others, fs.key);
  }

  lemma {:induction false} WireCanonical(v: Json)
    requires Canonical(v)
    ensures Canonical(Wire(v)) && Print(Wire(v)) == Print(v)
    decreases v, 1
  {
    match v
    case Arr(xs) => WireItemsCanonical(xs);
    case Obj(fs) => WireFieldsCanonical(fs);
    case _ =>
  }

  lemma {:induction false} WireItemsCanonical(xs: Items)
    requires CanonicalItems(xs)
    ensures CanonicalItems(WireItems(xs)) && PrintItems(WireItems(xs)) == PrintItems(xs)
    ensures Print(Arr(WireItems(xs))) == Print(Arr(xs))
  {
    if xs.Item? {
      WireCanonical(xs.head);
      WireItemsCanonical(xs.rest);
    }
  }

  lemma {:induction false} WireFieldsCanonical(fs: Fields)
    requires CanonicalFields(fs) && Sorted(fs)
    ensures CanonicalFields(WireFields(fs)) && Sorted(WireFields(fs)) && PrintFields(WireFields(fs)) == PrintFields(fs)
    ensures Print(Obj(WireFields(fs))) == Print(Obj(fs))
  {
    if fs.Field? {
      WireSorted(fs);
      if fs.others.Field? {
        WireSorted(fs.others);
      }
      WireCanonical(fs.value);
      WireFieldsCanonical(fs.others);
    }
  }

  // ---------- when two canonical texts are equal ----------

  /** The value with every undefined array element replaced by null, at every depth. */
  function Nulled(v: Json): Json {
    match v
    case Arr(xs) => Arr(NulledItems(xs))
    case Obj(fs) => Obj(NulledFields(fs))
    case _ => v
  }

  function NulledItems(xs: Items): Items {
    match xs
    case NoItems => NoItems
    case Item(x, rest) => Item(if x == Undefined then Null else Nulled(x), NulledItems(rest))
  }

  function NulledFields(fs: Fields): Fields {
    match fs
    case NoFields => NoFields
    case Field(k, x, rest) => Field(k, Nulled(x), NulledFields(rest))
  }

  lemma {:induction false} NulledWellFormed(v: Json)
    requires WellFormed(v)
    ensures WellFormed(Nulled(v))
    decreases v, 1
  {
    match v
    case Arr(xs) => NulledItemsWellFormed(xs);
    case Obj(fs) => NulledFieldsWellFormed(fs);
    case _ =>
  }

  lemma {:induction false} NulledItemsWellFormed(xs: Items)
    requires WellFormedItems(xs)
    ensures WellFormedItems(NulledItems(xs))
  {
    if xs.Item? {
      NulledWellFormed(xs.head);
      NulledItemsWellFormed(xs.rest);
    }
  }

  lemma {:induction false} NulledFieldsWellFormed(fs: Fields)
    requires WellFormedFields(fs)
    ensures WellFormedFields(NulledFields(fs))
  {
    if fs.Field? {
      NulledWellFormed(fs.value);
      NulledFieldsWellFormed(fs.others);
      NulledKeys(fs.others, fs.key);
    }
  }

  lemma {:induction false} NulledKeys(fs: Fields, k: string)
    ensures HasKey(NulledFields(fs), k) <==> HasKey(fs, k)
  {
    if fs.Field? {
      NulledKeys(fs.others, k);
    }
  }

  lemma {:induction false} WireInsert(k: string, v: Json, fs: Fields)
    requires Sorted(fs) && Get(fs, k) == Undefined && v != Undefined
    ensures WireFields(Insert(k, v, fs)) == Insert(k, Wire(v), WireFields(fs))
  {
    InsertGet(k, v, fs, k);
    WireSorted(Insert(k, v, fs));
    if fs.Field? {
      WireSorted(fs);
      if Before(fs.key, k) {
        BeforeAsymmetric(fs.key, k);
        WireInsert(k, v, fs.others);
      }
    }
  }

  /** What the canonical text carries: sorting and then writing keeps exactly the nulled value, sorted. */
  lemma {:induction false} WireOfSorted(v: Json)
    requires WellFormed(v) && v != Undefined
    ensures Wire(SortKeys(v)) == SortKeys(Nulled(v))
    decreases v, 1
  {
    match v
    case Arr(xs) => WireOfSortedItems(xs);
    case Obj(fs) => WireOfSortedFields(fs);
    case _ =>
  }

  lemma {:induction false} WireOfSortedItems(xs: Items)
    requires WellFormedItems(xs)
    ensures WireItems(SortItems(xs)) == SortItems(NulledItems(xs))
  {
    if xs.Item? {
      if xs.head != Undefined {
        WireOfSorted(xs.head);
      }
      WireOfSortedItems(xs.rest);
    }
  }

  lemma {:induction false} WireOfSortedFields(fs: Fields)
    requires WellFormedFields(fs)
    ensures WireFields(SortFields(fs)) == SortFields(NulledFields(fs))
  {
    if fs.Field? {
      WireOfSortedFields(fs.others);
      if fs.value != Undefined {
        WireOfSorted(fs.value);
        SortFieldsGet(fs.others, fs.key);
        AbsentIsUndefined(fs.others, fs.key);
        WireInsert(fs.key, SortKeys(fs.value), SortFields(fs.others));
      }
    }
  }

  /** Equal text exactly for values that are the same once undefined array elements read as null. */
  lemma CanonicalTextIsExact(a: Json, b: Json)
    requires WellFormed(a) && a != Undefined && WellFormed(b) && b != Undefined
    ensures CanonicalTextOf(a) == CanonicalTextOf(b) <==> Same(Nulled(a), Nulled(b))
  {
    hide Print, Wire, SortKeys, Nulled, ParseValue, Same, Canonical, WellFormed;
    TextCarriesWire(a);
    TextCarriesWire(b);
    NulledWellFormed(a);
    NulledWellFormed(b);
    SortKeysIsCanonical(Nulled(a), Nulled(b));
  }

  lemma TextCarriesWire(v: Json)
    requires WellFormed(v) && v != Undefined
    ensures Wire(SortKeys(v)) == SortKeys(Nulled(v))
    ensures Print(SortKeys(Nulled(v))) == CanonicalTextOf(v)
    ensures ParseValue(CanonicalTextOf(v)) == Ok(SortKeys(Nulled(v)), [])
  {
    WireOfSorted(v);
    SortKeysCanonical(v);
    WireCanonical(SortKeys(v));
    ParsePrint(SortKeys(v), []);
    assert Print(SortKeys(v)) + [] == Print(SortKeys(v));
  }

  /** No undefined array element. */
  predicate Plain(v: Json) {
    match v
    case Arr(xs) => PlainItems(xs)
    case Obj(fs) => PlainFields(fs)
    case _ => true
  }

  predicate PlainItems(xs: Items) {
    xs.Item? ==> xs.head != Undefined && Plain(xs.head) && PlainItems(xs.rest)
  }

  predicate PlainFields(fs: Fields) {
    fs.Field? ==> Plain(fs.value) && PlainFields(fs.others)
  }

  lemma {:induction false} PlainIsNulled(v: Json)
    requires Plain(v)
    ensures Nulled(v) == v
    decreases v, 1
  {
    match v
    case Arr(xs) => PlainItemsNulled(xs);
    case Obj(fs) => PlainFieldsNulled(fs);
    case _ =>
  }

  lemma {:induction false} PlainItemsNulled(xs: Items)
    requires PlainItems(xs)
    ensures NulledItems(xs) == xs
  {
    if xs.Item? {
      PlainIsNulled(xs.head);
      PlainItemsNulled(xs.rest);
    }
  }

  lemma {:induction false} PlainFieldsNulled(fs: Fields)
    requires PlainFields(fs)
    ensures NulledFields(fs) == fs
  {
    if fs.Field? {
      PlainIsNulled(fs.value);
      PlainFieldsNulled(fs.others);
    }
  }

  /** Without undefined array elements: equal canonical text exactly for the same value. */
  lemma CanonicalTextDecides(a: Json, b: Json)
    requires WellFormed(a) && Plain(a) && a != Undefined
    requires WellFormed(b) && Plain(b) && b != Undefined
    ensures CanonicalTextOf(a) == CanonicalTextOf(b) <==> Same(a, b)
  {
    CanonicalTextIsExact(a, b);
    PlainIsNulled(a);
    PlainIsNulled(b);
  }

  /** Why `Nulled` is needed: an undefined element is not a null one, yet the texts agree. */
  lemma UndefinedElementCollides()
    ensures var a, b := Arr(Item(Undefined, NoItems)), Arr(Item(Null, NoItems));
            CanonicalTextOf(a) == CanonicalTextOf(b) && !Same(a, b) && WellFormed(a) && WellFormed(b) && !Plain(a)
  {}

  // ---------- parsed values ----------

  lemma {:induction false} WithoutOk(fs: Fields, k: string)
    requires WellFormedFields(fs) && PlainFields(fs)
    ensures WellFormedFields(Without(fs, k)) && PlainFields(Without(fs, k))
  {
    if fs.Field? {
      WithoutOk(fs.others, k);
      WithoutKeys(fs.others, k, fs.key);
    }
  }

  lemma {:induction false} GetPlain(fs: Fields, k: string)
    requires PlainFields(fs)
    ensures Plain(Get(fs, k))
  {
    if fs.Field? {
      GetPlain(fs.others, k);
    }
  }

  lemma PutOk(k: string, v: Json, fs: Fields)
    requires WellFormedFields(fs) && PlainFields(fs) && WellFormed(v) && Plain(v)
    ensures WellFormedFields(Put(k, v, fs)) && PlainFields(Put(k, v, fs))
  {
    WithoutOk(fs, k);
    WithoutKeys(fs, k, k);
    WellFormedGet(fs, k);
    GetPlain(fs, k);
  }

  /** Whatever text is parsed, keys repeated or not, the value has distinct keys and nothing undefined in an array. */
  lemma {:induction false} ParsedIsOrdinary(ts: Text)
    ensures var r := ParseValue(ts); r.Ok? ==> WellFormed(r.value) && Plain(r.value) && r.value != Undefined
    decreases |ts|, 1
  {
    if ts != [] && ts[0] == LBracket && !(|ts| >= 2 && ts[1] == RBracket) {
      ParsedIsOrdinary(ts[1..]);
      var first := ParseValue(ts[1..]);
      if first.Ok? {
        ParsedItemsOrdinary(first.rest);
      }
    } else if |ts| >= 3 && ts[0] == LBrace && ts[1].TStr? && ts[2] == Colon {
      ParsedIsOrdinary(ts[3..]);
      var first := ParseValue(ts[3..]);
      if first.Ok? {
        ParsedFieldsOrdinary(first.rest);
        var more := ParseFields(first.rest);
        if more.Ok? {
          PutOk(ts[1].text, first.value, more.value);
        }
      }
    }
  }

  lemma {:induction false} ParsedItemsOrdinary(ts: Text)
    ensures var r := ParseItems(ts); r.Ok? ==> WellFormedItems(r.value) && PlainItems(r.value)
    decreases |ts|, 0
  {
    if ts != [] && ts[0] == Comma {
      ParsedIsOrdinary(ts[1..]);
      var x := ParseValue(ts[1..]);
      if x.Ok? {
        ParsedItemsOrdinary(x.rest);
      }
    }
  }

  lemma {:induction false} ParsedFieldsOrdinary(ts: Text)
    ensures var r := ParseFields(ts); r.Ok? ==> WellFormedFields(r.value) && PlainFields(r.value)
    decreases |ts|, 0
  {
    if |ts| >= 3 && ts[0] == Comma && ts[1].TStr? && ts[2] == Colon {
      ParsedIsOrdinary(ts[3..]);
      var x := ParseValue(ts[3..]);
      if x.Ok? {
        ParsedFieldsOrdinary(x.rest);
        var more := ParseFields(x.rest);
        if more.Ok? {
          PutOk(ts[1].text, x.value, more.value);
        }
      }
    }
  }

  /** Any text that parses reads back to the canonical text of `v` exactly when it says the same value. */
  lemma AnyTextDecides(t: Text, v: Json)
    requires Parse(t).Some? && WellFormed(v) && v != Undefined
    ensures CanonicalTextOf(Parse(t).value) == CanonicalTextOf(v) <==> Same(Parse(t).value, Nulled(v))
  {
    ParsedIsOrdinary(t);
    PlainIsNulled(Parse(t).value);
    CanonicalTextIsExact(Parse(t).value, v);
  }

  /** A repeated key reads as its last value: the text {k: x, k: y} says {k: y}. */
  lemma RepeatedKeyTakesLast(k: string, x: int, y: int)
    ensures Parse([LBrace, TStr(k), Colon, TNum(x), Comma, TStr(k), Colon, TNum(y), RBrace])
         == Some(Obj(Field(k, Num(y), NoFields)))
  {
    var last := [Comma, TStr(k), Colon, TNum(y), RBrace];
    assert ParseFields([RBrace]) == Ok(NoFields, []);
    assert last[3..] == [TNum(y), RBrace] && last[3..][1..] == [RBrace];
    assert ParseValue(last[3..]) == Ok(Num(y), [RBrace]);
    assert ParseFields(last) == Ok(Field(k, Num(y), NoFields), []);
    var ts := [LBrace, TStr(k), Colon, TNum(x)] + last;
    assert ts[3..] == [TNum(x)] + last && ts[3..][1..] == last;
    assert ParseValue(ts[3..]) == Ok(Num(x), last);
    var one := Field(k, Num(y), NoFields);
    assert HasKey(one, k) && Get(one, k) == Num(y) && Without(one.others, k) == NoFields && Without(one, k) == NoFields;
    assert Put(k, Num(x), one) == one;
    assert ParseValue(ts) == Ok(Obj(Field(k, Num(y), NoFields)), []);
    assert ts == [LBrace, TStr(k), Colon, TNum(x), Comma, TStr(k), Colon, TNum(y), RBrace];
  }

  // ---------- stored text ----------

  /**
    Canonical text that was stored and parsed again has the same canonical text: nothing needs to be plain for this.
   */
  lemma StoredTextIsStable(v: Json)
    requires WellFormed(v)
    ensures Parse(CanonicalTextOf(v)).Some?
    ensures CanonicalTextOf(Parse(CanonicalTextOf(v)).value) == CanonicalTextOf(v)
    ensures CanonicalTextOf(v) != []
  {
    var w := SortKeys(v);
    SortKeysCanonical(v);
    ParsePrint(w, []);
    assert Print(w) + [] == Print(w);
    WireCanonical(w);
    CanonicalIsFixed(Wire(w));
    PrintStart(w);
  }
}
