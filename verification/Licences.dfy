/**
  The SPDX licence expression gate of scripts/licenses.ts: the recursive-descent parser over tokens, and the
  evaluator that asks whether an expression can be met with allow-listed licences only.
 */
module Licences {

  datatype Operator = And | Or

  datatype Expr = Id(name: string) | Op(op: Operator, terms: seq<Expr>)

  type Tokens = seq<string>

  // ---------- tokens ----------

  function UpperChar(c: char): char {
    if 'a' <= c <= 'z' then (c as int - 'a' as int + 'A' as int) as char else c
  }

  function Upper(s: string): string {
    seq(|s|, i requires 0 <= i < |s| => UpperChar(s[i]))
  }

  function Word(op: Operator): string {
    match op
    case And => "AND"
    case Or => "OR"
  }

  /** The next token is the operator, in any capitalisation. */
  predicate StartsWith(ts: Tokens, op: Operator) {
    ts != [] && Upper(ts[0]) == Word(op)
  }

  predicate Closes(ts: Tokens) {
    ts != [] && ts[0] == ")"
  }

  // ---------- the grammar as functions: each returns an expression and the tokens left ----------

  function ParsePrimary(ts: Tokens): (r: (Expr, Tokens))
    ensures |r.1| <= |ts| && (ts != [] ==> |r.1| < |ts|)
    ensures Canonical(r.0)
    decreases |ts|, 0
  {
    if ts == [] then (Id(""), [])
    else if ts[0] == "(" then
      var (inner, rest) := ParseOr(ts[1..]);
      (inner, if Closes(rest) then rest[1..] else rest)
    else (Id(ts[0]), ts[1..])
  }

  function ParseAndTail(ts: Tokens): (r: (seq<Expr>, Tokens))
    ensures |r.1| <= |ts|
    ensures forall e :: e in r.0 ==> Canonical(e)
    decreases |ts|, 1
  {
    if StartsWith(ts, And) then
      var (e, rest) := ParsePrimary(ts[1..]);
      var (es, end) := ParseAndTail(rest);
      ([e] + es, end)
    else ([], ts)
  }

  /** A single term stands for itself; an operator node has at least two. */
  function Node(op: Operator, first: Expr, more: seq<Expr>): (e: Expr)
    ensures Canonical(first) && (forall t :: t in more ==> Canonical(t)) ==> Canonical(e)
  {
    if more == [] then first else Op(op, [first] + more)
  }

  function ParseAnd(ts: Tokens): (r: (Expr, Tokens))
    ensures |r.1| <= |ts| && (ts != [] ==> |r.1| < |ts|)
    ensures Canonical(r.0)
    decreases |ts|, 2
  {
    var (e, rest) := ParsePrimary(ts);
    var (es, end) := ParseAndTail(rest);
    (Node(And, e, es), end)
  }

  function ParseOrTail(ts: Tokens): (r: (seq<Expr>, Tokens))
    ensures |r.1| <= |ts|
    ensures forall e :: e in r.0 ==> Canonical(e)
    decreases |ts|, 3
  {
    if StartsWith(ts, Or) then
      var (e, rest) := ParseAnd(ts[1..]);
      var (es, end) := ParseOrTail(rest);
      ([e] + es, end)
    else ([], ts)
  }

  function ParseOr(ts: Tokens): (r: (Expr, Tokens))
    ensures |r.1| <= |ts| && (ts != [] ==> |r.1| < |ts|)
    ensures Canonical(r.0)
    decreases |ts|, 4
  {
    var (e, rest) := ParseAnd(ts);
    var (es, end) := ParseOrTail(rest);
    (Node(Or, e, es), end)
  }

  function Parse(ts: Tokens): (Expr, Tokens) {
    ParseOr(ts)
  }

  /** One more operand of AND. */
  lemma AndStep(here: Tokens, t: Expr, next: Tokens, done: seq<Expr>, tail: (seq<Expr>, Tokens))
    requires StartsWith(here, And) && ParsePrimary(here[1..]) == (t, next)
    requires tail == (done + ParseAndTail(here).0, ParseAndTail(here).1)
    ensures tail == ((done + [t]) + ParseAndTail(next).0, ParseAndTail(next).1)
  {
    assert done + ([t] + ParseAndTail(next).0) == (done + [t]) + ParseAndTail(next).0;
  }

  /** No more operands of AND. */
  lemma AndStop(start: Tokens, first: Expr, end: Tokens, done: seq<Expr>, tail: (seq<Expr>, Tokens))
    requires ParsePrimary(start).0 == first && ParseAndTail(ParsePrimary(start).1) == tail && !StartsWith(end, And)
    requires tail == (done + ParseAndTail(end).0, ParseAndTail(end).1)
    ensures ParseAnd(start) == (Node(And, first, done), end)
  {
    assert done + [] == done;
  }

  /** One more operand of OR. */
  lemma OrStep(here: Tokens, t: Expr, next: Tokens, done: seq<Expr>, tail: (seq<Expr>, Tokens))
    requires StartsWith(here, Or) && ParseAnd(here[1..]) == (t, next)
    requires tail == (done + ParseOrTail(here).0, ParseOrTail(here).1)
    ensures tail == ((done + [t]) + ParseOrTail(next).0, ParseOrTail(next).1)
  {
    assert done + ([t] + ParseOrTail(next).0) == (done + [t]) + ParseOrTail(next).0;
  }

  /** No more operands of OR. */
  lemma OrStop(start: Tokens, first: Expr, end: Tokens, done: seq<Expr>, tail: (seq<Expr>, Tokens))
    requires ParseAnd(start).0 == first && ParseOrTail(ParseAnd(start).1) == tail && !StartsWith(end, Or)
    requires tail == (done + ParseOrTail(end).0, ParseOrTail(end).1)
    ensures ParseOr(start) == (Node(Or, first, done), end)
  {
    assert done + [] == done;
  }

  // ---------- the parser as written: one index moving over the tokens ----------

  class Parser {
    const tokens: Tokens
    var i: nat

    constructor (tokens: Tokens)
      ensures this.tokens == tokens && i == 0
    {
      this.tokens, i := tokens, 0;
    }

    /** Tokens not consumed yet; the index may run one past the end. */
    function Left(): Tokens
      reads this
    {
      if i <= |tokens| then tokens[i..] else []
    }

    method Primary() returns (e: Expr)
      modifies this
      ensures (e, Left()) == ParsePrimary(old(Left()))
      decreases |Left()|, 0
    {
      if i < |tokens| && tokens[i] == "(" {
        assert Left()[1..] == tokens[i + 1..];
        i := i + 1;
        e := OrExpr();
        if i < |tokens| && tokens[i] == ")" {
          assert Left()[1..] == tokens[i + 1..];
          i := i + 1;
        }
        return;
      }
      assert i < |tokens| ==> Left()[1..] == tokens[i + 1..];
      e := Id(if i < |tokens| then tokens[i] else "");
      i := i + 1;
    }

    method AndExpr() returns (e: Expr)
      modifies this
      ensures (e, Left()) == ParseAnd(old(Left()))
      decreases |Left()|, 1
    {
      hide Upper, ParseAndTail, ParseAnd, ParsePrimary;
      ghost var start := Left();
      var first := Primary();
      var terms := [first];
      ghost var tail := ParseAndTail(Left());
      ghost var done: seq<Expr> := [];
      assert done + tail.0 == tail.0;
      while i < |tokens| && Upper(tokens[i]) == "AND"
        invariant terms == [first] + done
        invariant (start != [] ==> |Left()| < |start|) && |Left()| <= |start|
        invariant tail == (done + ParseAndTail(Left()).0, ParseAndTail(Left()).1)
        decreases |Left()|
      {
        ghost var here := Left();
        assert here[1..] == tokens[i + 1..];
        i := i + 1;
        var t := Primary();
        AndStep(here, t, Left(), done, tail);
        terms := terms + [t];
        done := done + [t];
      }
      assert !StartsWith(Left(), And);
      AndStop(start, first, Left(), done, tail);
      e := if |terms| == 1 then terms[0] else Op(And, terms);
    }

    method OrExpr() returns (e: Expr)
      modifies this
      ensures (e, Left()) == ParseOr(old(Left()))
      decreases |Left()|, 2
    {
      hide Upper, ParseOrTail, ParseOr, ParseAnd;
      ghost var start := Left();
      var first := AndExpr();
      var terms := [first];
      ghost var tail := ParseOrTail(Left());
      ghost var done: seq<Expr> := [];
      assert done + tail.0 == tail.0;
      while i < |tokens| && Upper(tokens[i]) == "OR"
        invariant terms == [first] + done
        invariant (start != [] ==> |Left()| < |start|) && |Left()| <= |start|
        invariant tail == (done + ParseOrTail(Left()).0, ParseOrTail(Left()).1)
        decreases |Left()|
      {
        ghost var here := Left();
        assert here[1..] == tokens[i + 1..];
        i := i + 1;
        var t := AndExpr();
        OrStep(here, t, Left(), done, tail);
        terms := terms + [t];
        done := done + [t];
      }
      assert !StartsWith(Left(), Or);
      OrStop(start, first, Left(), done, tail);
      e := if |terms| == 1 then terms[0] else Op(Or, terms);
    }
  }

  method ParseExpr(tokens: Tokens) returns (e: Expr)
    ensures e == Parse(tokens).0
  {
    var p := new Parser(tokens);
    e := p.OrExpr();
  }

  // ---------- printing and the round trip ----------

  /** Operators have at least two terms and no identifier is an opening parenthesis. */
  predicate Canonical(e: Expr) {
    match e
    case Id(name) => name != "("
    case Op(_, terms) => |terms| >= 2 && forall t :: t in terms ==> Canonical(t)
  }

  /** Every operator in parentheses. */
  function Print(e: Expr): Tokens
    decreases e, 1
  {
    match e
    case Id(name) => [name]
    case Op(op, terms) =>
      if terms == [] then ["(", ")"] else ["("] + Print(terms[0]) + PrintTail(op, terms[1..]) + [")"]
  }

  function PrintTail(op: Operator, terms: seq<Expr>): Tokens
    decreases terms, 0
  {
    if terms == [] then [] else [Word(op)] + Print(terms[0]) + PrintTail(op, terms[1..])
  }

  lemma UpperWords()
    ensures Upper("AND") == "AND" && Upper("OR") == "OR" && Upper(")") == ")"
  {}

  lemma {:induction false} PrimaryPrint(e: Expr, rest: Tokens)
    requires Canonical(e)
    ensures ParsePrimary(Print(e) + rest) == (e, rest)
    decreases e, 1
  {
    match e
    case Id(name) => assert (Print(e) + rest)[1..] == rest;
    case Op(op, terms) =>
      var tail := PrintTail(op, terms[1..]) + ([")"] + rest);
      var ts := Print(e) + rest;
      assert ts[1..] == Print(terms[0]) + tail;
      PrimaryPrint(terms[0], tail);
      TailPrint(op, terms[1..], rest);
      assert tail[0] == Word(op) by { assert PrintTail(op, terms[1..])[0] == Word(op); }
      BodyParse(op, ts[1..], terms, tail, [")"] + rest);
      assert ([")"] + rest)[1..] == rest;
  }

  /** Inside the parentheses: the first term, then the tail, up to the closing parenthesis. */
  lemma BodyParse(op: Operator, ts: Tokens, terms: seq<Expr>, tail: Tokens, end: Tokens)
    requires |terms| >= 2 && ParsePrimary(ts) == (terms[0], tail)
    requires tail != [] && tail[0] == Word(op) && Closes(end)
    requires op == And ==> ParseAndTail(tail) == (terms[1..], end)
    requires op == Or ==> ParseOrTail(tail) == (terms[1..], end)
    ensures ParseOr(ts) == (Op(op, terms), end)
  {
    UpperWords();
    assert !StartsWith(end, Or);
    assert terms == [terms[0]] + terms[1..];
    if op == Or {
      assert !StartsWith(tail, And);
      assert ParseAnd(ts) == (terms[0], tail);
    } else {
      assert ParseAnd(ts) == (Op(And, terms), end);
    }
  }

  /** Reading back the printed tail of an operator node. */
  lemma {:induction false} TailPrint(op: Operator, terms: seq<Expr>, rest: Tokens)
    requires forall t :: t in terms ==> Canonical(t)
    ensures op == And ==> ParseAndTail(PrintTail(op, terms) + ([")"] + rest)) == (terms, [")"] + rest)
    ensures op == Or ==> ParseOrTail(PrintTail(op, terms) + ([")"] + rest)) == (terms, [")"] + rest)
    decreases terms, 0
  {
    UpperWords();
    var ts := PrintTail(op, terms) + ([")"] + rest);
    if terms == [] {
      assert ts == [")"] + rest;
    } else {
      var more := PrintTail(op, terms[1..]) + ([")"] + rest);
      assert ts[1..] == Print(terms[0]) + more;
      assert terms == [terms[0]] + terms[1..];
      PrimaryPrint(terms[0], more);
      TailPrint(op, terms[1..], rest);
      assert more[0] == ")" || more[0] == Word(op);
      if op == Or {
        assert !StartsWith(more, And);
        assert ParseAnd(ts[1..]) == (terms[0], more);
      }
    }
  }

  /**
    Printing with parentheses and parsing gives the expression back, with every token consumed, exactly for
    expressions whose operators have two or more terms and in which no identifier is "(".
   */
  lemma RoundTrip(e: Expr)
    ensures Parse(Print(e)) == (e, []) <==> Canonical(e)
  {
    if Canonical(e) {
      assert Print(e) + [] == Print(e);
      PrimaryPrint(e, []);
      assert ParsePrimary(Print(e)) == (e, []);
      assert ParseAnd(Print(e)) == (e, []);
      assert ParseOr(Print(e)) == (e, []);
    }
  }

  // ---------- the fewest parentheses ----------

  /** As an operand of AND or in a one-term place: operators in parentheses. */
  function PrintOperand(e: Expr): Tokens
    decreases e, 2
  {
    match e
    case Id(name) => [name]
    case Op(_, _) => ["("] + PrintFree(e) + [")"]
  }

  /** As an operand of OR: AND binds tighter and needs no parentheses. */
  function PrintTerm(e: Expr): Tokens
    decreases e, 3
  {
    if e.Op? && e.op == And && e.terms != []
    then PrintOperand(e.terms[0]) + PrintMore(And, e.terms[1..])
    else PrintOperand(e)
  }

  /** Where any expression may stand: at the top or just inside parentheses. */
  function PrintFree(e: Expr): Tokens
    decreases e, if e.Op? then 1 else 4
  {
    match e
    case Id(_) => PrintTerm(e)
    case Op(op, terms) =>
      if terms == [] then []
      else if op == And then PrintOperand(terms[0]) + PrintMore(And, terms[1..])
      else PrintTerm(terms[0]) + PrintMore(Or, terms[1..])
  }

  function PrintMore(op: Operator, terms: seq<Expr>): Tokens
    decreases terms, 0
  {
    if terms == [] then []
    else [Word(op)] + (if op == And then PrintOperand(terms[0]) else PrintTerm(terms[0])) + PrintMore(op, terms[1..])
  }

  predicate StartsOperator(ts: Tokens) {
    StartsWith(ts, And) || StartsWith(ts, Or)
  }

  lemma {:induction false} OperandParse(e: Expr, rest: Tokens)
    requires Canonical(e)
    ensures ParsePrimary(PrintOperand(e) + rest) == (e, rest)
    decreases e, 2
  {
    var ts := PrintOperand(e) + rest;
    match e
    case Id(name) => assert ts[1..] == rest;
    case Op(_, _) =>
      UpperWords();
      var end := [")"] + rest;
      assert ts[1..] == PrintFree(e) + end;
      FreeParse(e, end);
      assert end[1..] == rest;
  }

  lemma {:induction false} TermParse(e: Expr, rest: Tokens)
    requires Canonical(e) && !StartsWith(rest, And)
    ensures ParseAnd(PrintTerm(e) + rest) == (e, rest)
    decreases e, 3
  {
    if e.Op? && e.op == And {
      AndParse(e, rest);
    } else {
      OperandParse(e, rest);
    }
  }

  lemma {:induction false} AndParse(e: Expr, rest: Tokens)
    requires Canonical(e) && e.Op? && e.op == And && !StartsWith(rest, And)
    ensures ParseAnd(PrintOperand(e.terms[0]) + PrintMore(And, e.terms[1..]) + rest) == (e, rest)
    decreases e, 0
  {
    hide ParsePrimary, ParseAndTail, PrintOperand, PrintMore;
    var first, more := PrintOperand(e.terms[0]), PrintMore(And, e.terms[1..]);
    assert first + more + rest == first + (more + rest);
    OperandParse(e.terms[0], more + rest);
    MoreAndParse(e.terms[1..], rest);
    assert e.terms == [e.terms[0]] + e.terms[1..];
  }

  lemma {:induction false} OrParse(e: Expr, rest: Tokens)
    requires Canonical(e) && e.Op? && e.op == Or && !StartsOperator(rest)
    ensures ParseOr(PrintTerm(e.terms[0]) + PrintMore(Or, e.terms[1..]) + rest) == (e, rest)
    decreases e, 0
  {
    hide ParseAnd, ParseOrTail, PrintTerm, PrintMore, Upper;
    var first, more := PrintTerm(e.terms[0]), PrintMore(Or, e.terms[1..]);
    assert first + more + rest == first + (more + rest);
    OrMoreStart(e.terms[1..], rest);
    TermParse(e.terms[0], more + rest);
    MoreOrParse(e.terms[1..], rest);
    assert e.terms == [e.terms[0]] + e.terms[1..];
  }

  lemma OrMoreStart(terms: seq<Expr>, rest: Tokens)
    requires !StartsWith(rest, And)
    ensures !StartsWith(PrintMore(Or, terms) + rest, And)
  {
    UpperWords();
    if terms == [] {
      assert PrintMore(Or, terms) + rest == rest;
    } else {
      assert (PrintMore(Or, terms) + rest)[0] == "OR";
    }
  }

  lemma {:induction false} FreeParse(e: Expr, rest: Tokens)
    requires Canonical(e) && !StartsOperator(rest)
    ensures ParseOr(PrintFree(e) + rest) == (e, rest)
    decreases e, if e.Op? then 1 else 4
  {
    match e
    case Id(_) =>
      OperandParse(e, rest);
      assert ParseAnd(PrintFree(e) + rest) == (e, rest);
    case Op(And, terms) => AndParse(e, rest);
    case Op(Or, terms) => OrParse(e, rest);
  }

  lemma AndTailStep(ts: Tokens, e: Expr, next: Tokens)
    requires StartsWith(ts, And) && ParsePrimary(ts[1..]) == (e, next)
    ensures ParseAndTail(ts) == ([e] + ParseAndTail(next).0, ParseAndTail(next).1)
  {}

  lemma OrTailStep(ts: Tokens, e: Expr, next: Tokens)
    requires StartsWith(ts, Or) && ParseAnd(ts[1..]) == (e, next)
    ensures ParseOrTail(ts) == ([e] + ParseOrTail(next).0, ParseOrTail(next).1)
  {}

  lemma Headed(word: string, a: Tokens, b: Tokens, rest: Tokens)
    ensures ([word] + a + b + rest)[0] == word && ([word] + a + b + rest)[1..] == a + (b + rest)
  {}

  lemma {:induction false} MoreAndParse(terms: seq<Expr>, rest: Tokens)
    requires (forall t :: t in terms ==> Canonical(t)) && !StartsWith(rest, And)
    ensures ParseAndTail(PrintMore(And, terms) + rest) == (terms, rest)
    decreases terms, 0
  {
    hide ParsePrimary, PrintOperand, Upper;
    if terms == [] {
      assert [] + rest == rest;
    } else {
      UpperWords();
      var first, more := PrintOperand(terms[0]), PrintMore(And, terms[1..]);
      Headed("AND", first, more, rest);
      OperandParse(terms[0], more + rest);
      AndTailStep(["AND"] + first + more + rest, terms[0], more + rest);
      MoreAndParse(terms[1..], rest);
      hide ParseAndTail;
      assert terms == [terms[0]] + terms[1..];
    }
  }

  lemma {:induction false} MoreOrParse(terms: seq<Expr>, rest: Tokens)
    requires (forall t :: t in terms ==> Canonical(t)) && !StartsOperator(rest)
    ensures ParseOrTail(PrintMore(Or, terms) + rest) == (terms, rest)
    decreases terms, 0
  {
    hide ParseAnd, PrintTerm, Upper;
    if terms == [] {
      assert [] + rest == rest;
    } else {
      UpperWords();
      var first, more := PrintTerm(terms[0]), PrintMore(Or, terms[1..]);
      Headed("OR", first, more, rest);
      OrMoreStart(terms[1..], rest);
      TermParse(terms[0], more + rest);
      OrTailStep(["OR"] + first + more + rest, terms[0], more + rest);
      MoreOrParse(terms[1..], rest);
      hide ParseOrTail;
      assert terms == [terms[0]] + terms[1..];
    }
  }

  /** The fewest parentheses are enough: AND binds tighter than OR, and each takes all its operands in one node. */
  lemma MinimalRoundTrip(e: Expr)
    requires Canonical(e)
    ensures Parse(PrintFree(e)) == (e, [])
  {
    assert PrintFree(e) + [] == PrintFree(e);
    FreeParse(e, []);
  }

  // ---------- how far the parser reads ----------

  /**
    What one pass over the tokens leaves unread, knowing only if an operand is due and how many parentheses are
    open.
   */
  function Unread(ts: Tokens, operandDue: bool, open: nat): Tokens {
    if ts == [] then []
    else if operandDue then
      if ts[0] == "(" then Unread(ts[1..], true, open + 1) else Unread(ts[1..], false, open)
    else if StartsOperator(ts) then Unread(ts[1..], true, open)
    else if ts[0] == ")" && open > 0 then Unread(ts[1..], false, open - 1)
    else ts
  }

  lemma {:induction false} PrimaryReads(ts: Tokens, open: nat)
    ensures Unread(ts, true, open) == Unread(ParsePrimary(ts).1, false, open)
    decreases |ts|, 0
  {
    if ts != [] && ts[0] == "(" {
      UpperWords();
      OrReads(ts[1..], open + 1);
    }
  }

  lemma {:induction false} AndTailReads(ts: Tokens, open: nat)
    ensures Unread(ts, false, open) == Unread(ParseAndTail(ts).1, false, open)
    ensures !StartsWith(ParseAndTail(ts).1, And)
    decreases |ts|, 1
  {
    if StartsWith(ts, And) {
      PrimaryReads(ts[1..], open);
      AndTailReads(ParsePrimary(ts[1..]).1, open);
    }
  }

  lemma {:induction false} AndReads(ts: Tokens, open: nat)
    ensures Unread(ts, true, open) == Unread(ParseAnd(ts).1, false, open)
    ensures !StartsWith(ParseAnd(ts).1, And)
    decreases |ts|, 2
  {
    hide Unread;
    PrimaryReads(ts, open);
    AndTailReads(ParsePrimary(ts).1, open);
  }

  lemma {:induction false} OrTailReads(ts: Tokens, open: nat)
    requires !StartsWith(ts, And)
    ensures Unread(ts, false, open) == Unread(ParseOrTail(ts).1, false, open)
    ensures !StartsOperator(ParseOrTail(ts).1)
    decreases |ts|, 3
  {
    if StartsWith(ts, Or) {
      AndReads(ts[1..], open);
      OrTailReads(ParseAnd(ts[1..]).1, open);
    }
  }

  lemma {:induction false} OrReads(ts: Tokens, open: nat)
    ensures Unread(ts, true, open) == Unread(ParseOr(ts).1, false, open)
    ensures !StartsOperator(ParseOr(ts).1)
    decreases |ts|, 4
  {
    hide Unread;
    AndReads(ts, open);
    OrTailReads(ParseAnd(ts).1, open);
  }

  /**
    The parser reads exactly as far as the one-pass scan: it stops, silently, before the first token that is neither
    due operand, operator nor closing parenthesis of an open one. The gate judges what was read.
   */
  lemma ParserReads(ts: Tokens)
    ensures Parse(ts).1 == Unread(ts, true, 0)
  {
    OrReads(ts, 0);
  }

  // ---------- satisfiability ----------

  predicate Blank(c: char) {
    c == ' ' || c == '\t' || c == '\n' || c == '\r'
  }

  function TrimStart(s: string): string {
    if s != [] && Blank(s[0]) then TrimStart(s[1..]) else s
  }

  function TrimEnd(s: string): string {
    if s != [] && Blank(s[|s| - 1]) then TrimEnd(s[..|s| - 1]) else s
  }

  function Trim(s: string): string {
    TrimEnd(TrimStart(s))
  }

  predicate Satisfiable(e: Expr, allowed: set<string>) {
    match e
    case Id(name) => Trim(name) in allowed
    case Op(And, terms) => forall t :: t in terms ==> Satisfiable(t, allowed)
    case Op(Or, terms) => exists t :: t in terms && Satisfiable(t, allowed)
  }

  /** The alternatives of the disjunctive normal form: each is a set of licences to accept together. */
  function Alternatives(e: Expr): set<set<string>>
    decreases e, 1
  {
    match e
    case Id(name) => {{Trim(name)}}
    case Op(And, terms) => Together(terms)
    case Op(Or, terms) => set t, d | t in terms && d in Alternatives(t) :: d
  }

  function Together(terms: seq<Expr>): set<set<string>>
    decreases terms, 0
  {
    if terms == [] then {{}}
    else set a, b | a in Alternatives(terms[0]) && b in Together(terms[1..]) :: a + b
  }

  ghost predicate SomeWithin(alternatives: set<set<string>>, allowed: set<string>) {
    exists d :: d in alternatives && d <= allowed
  }

  /** Satisfiable exactly when some alternative uses allowed licences only. */
  lemma {:induction false} SatisfiableIsDnf(e: Expr, allowed: set<string>)
    ensures Satisfiable(e, allowed) <==> SomeWithin(Alternatives(e), allowed)
    decreases e, 1
  {
    match e
    case Id(name) =>
      assert Trim(name) in allowed ==> {Trim(name)} <= allowed;
      forall d | d in Alternatives(e) && d <= allowed ensures Trim(name) in allowed {
        assert Trim(name) in d;
      }
    case Op(And, terms) => TogetherIsAll(terms, allowed);
    case Op(Or, terms) =>
      forall t | t in terms ensures Satisfiable(t, allowed) <==> SomeWithin(Alternatives(t), allowed) {
        SatisfiableIsDnf(t, allowed);
      }
      if Satisfiable(e, allowed) {
        var t :| t in terms && Satisfiable(t, allowed);
        var d :| d in Alternatives(t) && d <= allowed;
        assert d in Alternatives(e);
      }
      if SomeWithin(Alternatives(e), allowed) {
        var d :| d in Alternatives(e) && d <= allowed;
        var t :| t in terms && d in Alternatives(t);
        assert SomeWithin(Alternatives(t), allowed);
      }
  }

  lemma {:induction false} TogetherIsAll(terms: seq<Expr>, allowed: set<string>)
    ensures (forall t :: t in terms ==> Satisfiable(t, allowed)) <==> SomeWithin(Together(terms), allowed)
    decreases terms, 0
  {
    if terms == [] {
      assert {} in Together(terms);
    } else {
      SatisfiableIsDnf(terms[0], allowed);
      TogetherIsAll(terms[1..], allowed);
      if SomeWithin(Alternatives(terms[0]), allowed) && SomeWithin(Together(terms[1..]), allowed) {
        var a :| a in Alternatives(terms[0]) && a <= allowed;
        var b :| b in Together(terms[1..]) && b <= allowed;
        assert a + b in Together(terms) && a + b <= allowed;
      }
      if SomeWithin(Together(terms), allowed) {
        var d :| d in Together(terms) && d <= allowed;
        var a, b :| a in Alternatives(terms[0]) && b in Together(terms[1..]) && d == a + b;
        assert a <= allowed && b <= allowed;
      }
      assert forall t :: t in terms <==> t == terms[0] || t in terms[1..];
    }
  }

  /** Allowing more licences never turns a compliant package non-compliant. */
  lemma SatisfiableIsMonotone(e: Expr, fewer: set<string>, more: set<string>)
    requires fewer <= more && Satisfiable(e, fewer)
    ensures Satisfiable(e, more)
  {
    SatisfiableIsDnf(e, fewer);
    SatisfiableIsDnf(e, more);
    var d :| d in Alternatives(e) && d <= fewer;
    assert d <= more;
  }

  /** The operators are the words "and" and "or" in any capitalisation, and no other tokens. */
  lemma AnyCapitalisation(token: string, rest: Tokens)
    ensures StartsWith([token] + rest, And) <==>
      |token| == 3 && token[0] in "aA" && token[1] in "nN" && token[2] in "dD"
    ensures StartsWith([token] + rest, Or) <==> |token| == 2 && token[0] in "oO" && token[1] in "rR"
  {
    var upper := Upper(token);
    assert upper == "AND" <==> |upper| == 3 && upper[0] == 'A' && upper[1] == 'N' && upper[2] == 'D';
    assert upper == "OR" <==> |upper| == 2 && upper[0] == 'O' && upper[1] == 'R';
  }

  lemma TwoTerms(op: Operator, x: Expr, y: Expr)
    ensures Node(op, x, [y] + []) == Op(op, [x, y])
  {
    assert [y] + [] == [y] && [x] + [y] == [x, y];
  }

  /** Without parentheses AND binds tighter than OR, on either side. */
  lemma AndBindsTighter(a: string, b: string, c: string)
    requires a != "(" && b != "(" && c != "("
    ensures Parse([a, "OR", b, "AND", c]) == (Op(Or, [Id(a), Op(And, [Id(b), Id(c)])]), [])
    ensures Parse([a, "AND", b, "OR", c]) == (Op(Or, [Op(And, [Id(a), Id(b)]), Id(c)]), [])
  {
    UpperWords();
    hide Upper;
    TwoTerms(And, Id(b), Id(c));
    TwoTerms(And, Id(a), Id(b));
    TwoTerms(Or, Id(a), Op(And, [Id(b), Id(c)]));
    TwoTerms(Or, Op(And, [Id(a), Id(b)]), Id(c));
    var both, either := ["AND", c], ["OR", c];
    assert both[1..] == [c] && either[1..] == [c] && [c][1..] == [];
    assert ParsePrimary([c]) == (Id(c), []) && ParseAndTail([]) == ([], []) && ParseOrTail([]) == ([], []);
    assert ParseAnd([c]) == (Id(c), []);
    assert ParseAndTail(both) == ([Id(c)] + [], []) && ParseOrTail(either) == ([Id(c)] + [], []);
    assert ParseAndTail(either) == ([], either);
    var bc, orBc := [b, "AND", c], ["OR", b, "AND", c];
    assert bc[1..] == both && orBc[1..] == bc && [a, "OR", b, "AND", c][1..] == orBc;
    assert ParseAnd(bc) == (Op(And, [Id(b), Id(c)]), []);
    assert ParseAndTail(orBc) == ([], orBc) && ParseOrTail(orBc) == ([Op(And, [Id(b), Id(c)])] + [], []);
    assert ParseAnd([a, "OR", b, "AND", c]) == (Id(a), orBc);
    var bOr, andBOr := [b, "OR", c], ["AND", b, "OR", c];
    assert bOr[1..] == either && andBOr[1..] == bOr && [a, "AND", b, "OR", c][1..] == andBOr;
    assert ParsePrimary(bOr) == (Id(b), either) && ParseAndTail(andBOr) == ([Id(b)] + [], either);
    assert ParseAnd([a, "AND", b, "OR", c]) == (Op(And, [Id(a), Id(b)]), either);
  }

  /** Trimming takes blanks off both ends and nothing else. */
  lemma TrimIsExact(s: string)
    ensures exists i, j :: 0 <= i <= j <= |s| && Trim(s) == s[i..j]
              && (forall k :: 0 <= k < i || j <= k < |s| ==> s[k] in " \t\n\r")
              && (i < j ==> s[i] !in " \t\n\r" && s[j - 1] !in " \t\n\r")
  {
    var i := TrimmedStart(s);
    var j := TrimmedEnd(s[i..]);
    assert s[i..][..j] == s[i..i + j];
    forall k | i + j <= k < |s| ensures s[k] in " \t\n\r" {
      assert s[k] == s[i..][k - i];
    }
    assert j > 0 ==> s[i..][j - 1] == s[i + j - 1];
  }

  lemma {:induction false} TrimmedStart(s: string) returns (i: nat)
    ensures i <= |s| && TrimStart(s) == s[i..] && (forall k :: 0 <= k < i ==> Blank(s[k]))
    ensures i < |s| ==> !Blank(s[i])
  {
    i := 0;
    if s != [] && Blank(s[0]) {
      var n := TrimmedStart(s[1..]);
      i := n + 1;
      assert s[1..][n..] == s[i..];
      forall k | 0 <= k < i ensures Blank(s[k]) {
        assert k > 0 ==> s[k] == s[1..][k - 1];
      }
    }
  }

  lemma {:induction false} TrimmedEnd(s: string) returns (j: nat)
    ensures j <= |s| && TrimEnd(s) == s[..j] && (forall k :: j <= k < |s| ==> Blank(s[k]))
    ensures j > 0 ==> !Blank(s[j - 1])
  {
    j := |s|;
    if s != [] && Blank(s[|s| - 1]) {
      j := TrimmedEnd(s[..|s| - 1]);
      assert s[..|s| - 1][..j] == s[..j];
    } else {
      assert s[..j] == s;
    }
  }

  /** A stray ")" hides the rest of an expression: MIT ) AND GPL-3.0 passes with MIT alone on the list. */
  lemma StrayParenthesisHidesTheRest()
    ensures var ts := ["MIT", ")", "AND", "GPL-3.0"];
            && Parse(ts) == (Id("MIT"), [")", "AND", "GPL-3.0"])
            && Satisfiable(Parse(ts).0, {"MIT"})
            && !Satisfiable(Op(And, [Id("MIT"), Id("GPL-3.0")]), {"MIT"})
  {
    var rest := [")", "AND", "GPL-3.0"];
    UpperWords();
    assert (["MIT"] + rest)[1..] == rest;
    assert !StartsOperator(rest);
    assert ["MIT"] + rest == ["MIT", ")", "AND", "GPL-3.0"];
    var both := [Id("MIT"), Id("GPL-3.0")];
    assert both[1] == Id("GPL-3.0") && Trim("GPL-3.0") == "GPL-3.0" && Trim("MIT") == "MIT";
    assert "GPL-3.0"[0] != "MIT"[0];
    assert both[1] in both && !Satisfiable(both[1], {"MIT"});
  }
}
