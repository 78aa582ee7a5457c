/**
  Transactions that nest by joining, from database.ts, over the ledger's table.
  A callback is modelled as a program; exceptions may be caught anywhere inside it.
 */
module Transactions {
  import opened Basics
  import opened CanonicalJson
  import opened LedgerModel
  import opened LedgerTheorems

  datatype Entry = Entry(input: Input, id: string, ts: int)

  datatype Program =
    | Insert(entry: Entry)                  // an INSERT of the next chained row
    | Raise                                 // throw
    | Both(first: Program, second: Program) // one after the other
    | Attempt(body: Program)                // try { body } catch {}
    | Transaction(body: Program)            // db.transaction(() => body)

  /** `ledger.append`: refuse invalid input, then insert inside a transaction. */
  function Append(entry: Entry): Program {
    if Accepted(entry.input) then Transaction(Insert(entry)) else Raise
  }

  /** The table afterwards and whether an exception escapes; `open` says that a transaction is already running. */
  function Exec(sha: Sha, p: Program, rows: seq<Row>, open: bool): (seq<Row>, bool) {
    match p
    case Insert(entry) => (rows + [NewRow(sha, rows, entry.input, entry.id, entry.ts)], false)
    case Raise => (rows, true)
    case Both(first, second) =>
      var (mid, raised) := Exec(sha, first, rows, open);
      if raised then (mid, true) else Exec(sha, second, mid, open)
    case Attempt(body) => (Exec(sha, body, rows, open).0, false)
    case Transaction(body) =>
      if open then Exec(sha, body, rows, true)
      else
        var (end, raised) := Exec(sha, body, rows, true);
        if raised then (rows, true) else (end, false)
  }

  /** The table and the transaction bookkeeping of `openDatabase`. */
  class Database {
    const sha: Sha
    var rows: seq<Row>
    var depth: nat
    /** What ROLLBACK restores. */
    var begun: seq<Row>

    constructor (sha: Sha)
      ensures this.sha == sha && rows == [] && depth == 0
    {
      this.sha := sha;
      rows, depth, begun := [], 0, [];
    }

    method Run(p: Program) returns (raised: bool)
      modifies this
      ensures (rows, raised) == Exec(sha, p, old(rows), old(depth) > 0)
      ensures depth == old(depth) && (depth > 0 ==> begun == old(begun))
      ensures Appended(sha, old(rows)) && InputsOk(p) ==> Appended(sha, rows)
      decreases p, 0
    {
      if InputsOk(p) && Appended(sha, rows) {
        ExecKeepsAppended(sha, p, rows, depth > 0);
      }
      match p
      case Insert(entry) =>
        rows := rows + [NewRow(sha, rows, entry.input, entry.id, entry.ts)];
        raised := false;
      case Raise =>
        raised := true;
      case Both(first, second) =>
        raised := Run(first);
        if !raised {
          raised := Run(second);
        }
      case Attempt(body) =>
        var caught := Run(body);
        raised := false;
      case Transaction(body) =>
        raised := Transact(body);
    }

    /** `transaction(fn)`: join when one is open, otherwise BEGIN, run, COMMIT or ROLLBACK. */
    method Transact(body: Program) returns (raised: bool)
      modifies this
      ensures (rows, raised) == Exec(sha, Transaction(body), old(rows), old(depth) > 0)
      ensures depth == old(depth) && (depth > 0 ==> begun == old(begun))
      ensures raised && depth == 0 ==> rows == old(rows)
      decreases body, 1
    {
      if depth > 0 {
        raised := Run(body);
        return;
      }
      begun := rows;
      depth := depth + 1;
      raised := Run(body);
      if raised {
        rows := begun;
      }
      depth := depth - 1;
    }
  }

  // ---------- what survives ----------

  /** Which entries a program leaves behind, and whether it raises; this does not look at the table. */
  function Survivors(p: Program, open: bool): (seq<Entry>, bool) {
    match p
    case Insert(entry) => ([entry], false)
    case Raise => ([], true)
    case Both(first, second) =>
      var (a, raised) := Survivors(first, open);
      if raised then (a, true) else (a + Survivors(second, open).0, Survivors(second, open).1)
    case Attempt(body) => (Survivors(body, open).0, false)
    case Transaction(body) =>
      var (a, raised) := Survivors(body, true);
      if raised && !open then ([], true) else (a, raised)
  }

  /** The rows plus the entries, chained in order. */
  function Chained(sha: Sha, rows: seq<Row>, entries: seq<Entry>): seq<Row>
    decreases |entries|
  {
    if entries == [] then rows
    else
      var e := entries[0];
      Chained(sha, rows + [NewRow(sha, rows, e.input, e.id, e.ts)], entries[1..])
  }

  lemma {:induction false} ChainedAppend(sha: Sha, rows: seq<Row>, a: seq<Entry>, b: seq<Entry>)
    ensures Chained(sha, rows, a + b) == Chained(sha, Chained(sha, rows, a), b)
    decreases |a|
  {
    if a == [] {
      assert a + b == b;
    } else {
      assert (a + b)[1..] == a[1..] + b;
      ChainedAppend(sha, rows + [NewRow(sha, rows, a[0].input, a[0].id, a[0].ts)], a[1..], b);
    }
  }

  /** Running a program amounts to chaining its survivors onto the table, whatever was rolled back on the way. */
  lemma {:induction false} ExecChainsSurvivors(sha: Sha, p: Program, rows: seq<Row>, open: bool)
    ensures Exec(sha, p, rows, open) == (Chained(sha, rows, Survivors(p, open).0), Survivors(p, open).1)
    decreases p
  {
    match p
    case Insert(entry) => assert [entry][1..] == [];
    case Raise =>
    case Both(first, second) =>
      ExecChainsSurvivors(sha, first, rows, open);
      var mid := Exec(sha, first, rows, open).0;
      ExecChainsSurvivors(sha, second, mid, open);
      ChainedAppend(sha, rows, Survivors(first, open).0, Survivors(second, open).0);
    case Attempt(body) => ExecChainsSurvivors(sha, body, rows, open);
    case Transaction(body) => ExecChainsSurvivors(sha, body, rows, true);
  }

  /** The states handed to the ledger anywhere in the program are ordinary values. */
  predicate InputsOk(p: Program) {
    match p
    case Insert(entry) => InputOk(entry.input)
    case Raise => true
    case Both(first, second) => InputsOk(first) && InputsOk(second)
    case Attempt(body) => InputsOk(body)
    case Transaction(body) => InputsOk(body)
  }

  lemma {:induction false} SurvivorsOk(p: Program, open: bool)
    requires InputsOk(p)
    ensures forall e :: e in Survivors(p, open).0 ==> InputOk(e.input)
    decreases p
  {
    match p
    case Insert(entry) =>
    case Raise =>
    case Both(first, second) =>
      SurvivorsOk(first, open);
      SurvivorsOk(second, open);
    case Attempt(body) => SurvivorsOk(body, open);
    case Transaction(body) => SurvivorsOk(body, true);
  }

  lemma {:induction false} ChainedExtends(sha: Sha, rows: seq<Row>, entries: seq<Entry>)
    ensures |Chained(sha, rows, entries)| == |rows| + |entries| && Chained(sha, rows, entries)[..|rows|] == rows
    decreases |entries|
  {
    if entries != [] {
      var e := entries[0];
      var more := rows + [NewRow(sha, rows, e.input, e.id, e.ts)];
      ChainedExtends(sha, more, entries[1..]);
      assert Chained(sha, rows, entries)[..|rows|] == Chained(sha, more, entries[1..])[..|more|][..|rows|];
    }
  }

  /** Chaining entries keeps an intact table intact exactly when none of them has an empty id. */
  lemma {:induction false} ChainedIntact(sha: Sha, rows: seq<Row>, entries: seq<Entry>)
    requires CollisionFree(sha) && Intact(sha, rows) && forall e :: e in entries ==> InputOk(e.input)
    ensures Intact(sha, Chained(sha, rows, entries)) <==> forall e :: e in entries ==> IdsNonEmpty(e.input)
    decreases |entries|
  {
    hide Intact, InputOk, IdsNonEmpty, NewRow, CollisionFree;
    if entries != [] {
      var e := entries[0];
      assert e in entries;
      var more := rows + [NewRow(sha, rows, e.input, e.id, e.ts)];
      AppendKeepsIntact(sha, rows, e.input, e.id, e.ts);
      if IdsNonEmpty(e.input) {
        ChainedIntact(sha, more, entries[1..]);
        assert entries == [e] + entries[1..];
      } else {
        ChainedExtends(sha, more, entries[1..]);
        if Intact(sha, Chained(sha, rows, entries)) {
          IntactPrefix(sha, Chained(sha, rows, entries), more);
        }
      }
    }
  }

  lemma IntactPrefix(sha: Sha, all: seq<Row>, rows: seq<Row>)
    requires Intact(sha, all) && |rows| <= |all| && all[..|rows|] == rows
    ensures Intact(sha, rows)
  {
    PrefixIntact(sha, all, rows, |rows|);
  }

  lemma {:induction false} ChainedAppended(sha: Sha, rows: seq<Row>, entries: seq<Entry>)
    requires Appended(sha, rows) && forall e :: e in entries ==> InputOk(e.input)
    ensures Appended(sha, Chained(sha, rows, entries))
    decreases |entries|
  {
    if entries != [] {
      var e := entries[0];
      assert InputOk(e.input);
      AppendKeepsAppended(sha, rows, e.input, e.id, e.ts);
      ChainedAppended(sha, rows + [NewRow(sha, rows, e.input, e.id, e.ts)], entries[1..]);
    }
  }

  /** A table that came about by appending stays one under any program, whatever it catches and rolls back. */
  lemma ExecKeepsAppended(sha: Sha, p: Program, rows: seq<Row>, open: bool)
    requires Appended(sha, rows) && InputsOk(p)
    ensures Appended(sha, Exec(sha, p, rows, open).0)
  {
    hide Appended, Exec, Survivors, InputsOk;
    ExecChainsSurvivors(sha, p, rows, open);
    SurvivorsOk(p, open);
    ChainedAppended(sha, rows, Survivors(p, open).0);
  }

  /** The i-th entry chained onto the table is in row i after the old ones, as it was handed in. */
  lemma {:induction false} ChainedHolds(sha: Sha, rows: seq<Row>, entries: seq<Entry>, i: nat)
    requires i < |entries| && forall e :: e in entries ==> InputOk(e.input)
    ensures var end := Chained(sha, rows, entries);
            |rows| + i < |end| && Holds(end[|rows| + i], entries[i].input, entries[i].id, entries[i].ts)
    decreases i
  {
    hide Holds, InputOk, NewRow;
    var e := entries[0];
    var more := rows + [NewRow(sha, rows, e.input, e.id, e.ts)];
    if i == 0 {
      AppendHolds(sha, rows, e.input, e.id, e.ts);
      ChainedExtends(sha, more, entries[1..]);
      assert Chained(sha, more, entries[1..])[..|more|][|rows|] == more[|rows|];
    } else {
      ChainedHolds(sha, more, entries[1..], i - 1);
    }
  }

  predicate Numbered(rows: seq<Row>) {
    forall i :: 0 <= i < |rows| ==> rows[i].number == i + 1
  }

  lemma IntactIsNumbered(sha: Sha, rows: seq<Row>)
    requires Intact(sha, rows)
    ensures Numbered(rows)
  {
    forall i | 0 <= i < |rows| ensures rows[i].number == i + 1 {
      assert RowIntact(sha, rows, i);
    }
  }

  lemma {:induction false} ChainedNumbers(sha: Sha, rows: seq<Row>, entries: seq<Entry>)
    requires Numbered(rows)
    ensures Numbered(Chained(sha, rows, entries))
    decreases |entries|
  {
    if entries != [] {
      var e := entries[0];
      var more := rows + [NewRow(sha, rows, e.input, e.id, e.ts)];
      assert more[|rows|].number == |rows| + 1;
      ChainedNumbers(sha, more, entries[1..]);
    }
  }

  /**
    Any mix of appends with nested, committed, caught and rolled-back transactions leaves as many events as
    survived, numbered from 1, and a ledger that verifies exactly when no surviving event has an empty optional id.
   */
  lemma AnyMixVerifies(sha: Sha, p: Program, rows: seq<Row>)
    requires CollisionFree(sha) && Intact(sha, rows) && InputsOk(p)
    ensures var end, left := Exec(sha, p, rows, false).0, Survivors(p, false).0;
            && |end| == |rows| + |left| && end[..|rows|] == rows && Numbered(end)
            && (forall i :: 0 <= i < |left| ==> Holds(end[|rows| + i], left[i].input, left[i].id, left[i].ts))
            && (VerdictOn(sha, end).Sound? <==> forall e :: e in left ==> IdsNonEmpty(e.input))
            && (VerdictOn(sha, end).Sound? ==> VerdictOn(sha, end) == Sound(|end|, HeadHash(end)))
  {
    hide Intact, InputsOk, Exec, Survivors, IdsNonEmpty, CollisionFree, Holds;
    var end, left := Exec(sha, p, rows, false).0, Survivors(p, false).0;
    ExecChainsSurvivors(sha, p, rows, false);
    SurvivorsOk(p, false);
    ChainedExtends(sha, rows, left);
    IntactIsNumbered(sha, rows);
    ChainedNumbers(sha, rows, left);
    ChainedIntact(sha, rows, left);
    VerdictMeansIntact(sha, end, 0);
    forall i | 0 <= i < |left| ensures Holds(end[|rows| + i], left[i].input, left[i].id, left[i].ts) {
      ChainedHolds(sha, rows, left, i);
    }
  }

  /** One event with an empty request id, appended to an empty ledger: the ledger no longer verifies. */
  lemma EmptyIdBreaksChain(sha: Sha)
    requires CollisionFree(sha)
    ensures var e := Input("acme", "alice", "draft.created", "draft", "1", Some(""), None, None, None,
                           Undefined, Undefined, Undefined);
            VerdictOn(sha, Exec(sha, Append(Entry(e, "event-1", 0)), [], false).0) == Broken(1, ContentHashMismatch)
  {
    var e := Input("acme", "alice", "draft.created", "draft", "1", Some(""), None, None, None,
                   Undefined, Undefined, Undefined);
    ReadBack(sha, [], e, "event-1", 0);
    var row := NewRow(sha, [], e, "event-1", 0);
    hide ReadContent, Readable;
    assert ReadContent(row).requestId == None && AppendedContent([], e, "event-1", 0).requestId == Some("");
    assert sha(ReadContent(row)) != row.hash;
    assert [row][..0] == [];
    assert Exec(sha, Append(Entry(e, "event-1", 0)), [], false).0 == [row];
  }

  /**
    A transaction that fails leaves the table as it was exactly when it was the outermost one or nothing in it had
    survived to be undone: inner transactions are not savepoints.
   */
  lemma FailureRestoresExactly(sha: Sha, body: Program, rows: seq<Row>, open: bool)
    requires Exec(sha, Transaction(body), rows, open).1
    ensures Exec(sha, Transaction(body), rows, open).0 == rows <==> !open || Survivors(body, true).0 == []
  {
    var left := Survivors(body, true).0;
    ExecChainsSurvivors(sha, body, rows, true);
    ChainedExtends(sha, rows, left);
    if left == [] {
      assert Chained(sha, rows, left) == rows;
    }
  }

  /** A failure inside that is caught keeps what it had written: of a, failure, b both a and b stay. */
  lemma CaughtInnerFailureKeepsWrites(sha: Sha, a: Entry, b: Entry, rows: seq<Row>)
    ensures var inner := Transaction(Both(Insert(a), Raise));
            Exec(sha, Transaction(Both(Attempt(inner), Insert(b))), rows, false) == (Chained(sha, rows, [a, b]), false)
  {
    var inner := Transaction(Both(Insert(a), Raise));
    ExecChainsSurvivors(sha, Transaction(Both(Attempt(inner), Insert(b))), rows, false);
    assert [a] + [] + [b] == [a, b];
    var written := Both(Insert(a), Raise);
    assert Survivors(written, true) == ([a] + [], true);
    assert Survivors(inner, true) == Survivors(written, true);
    assert Survivors(Both(Attempt(inner), Insert(b)), true) == ([a] + [] + [b], false);
  }
}
