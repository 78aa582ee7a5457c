/** `AuditLedger`: append, the verification walk, and the cached verification that remembers the last good head. */
module AuditLedgerService {
  import opened Basics
  import opened CanonicalJson
  import opened LedgerModel
  import opened LedgerTheorems
  import opened Transactions

  class AuditLedger {
    const db: Database
    var lastVerified: Memory
    /** The table as it was when `lastVerified` was recorded. */
    ghost var verifiedRows: seq<Row>

    /** The table only ever came about by appending (and rolling back), and the memory is of such a table. */
    ghost predicate Valid()
      reads this, db
    {
      && CollisionFree(db.sha)
      && Appended(db.sha, db.rows)
      && Remembers(db.sha)
    }

    ghost predicate Remembers(sha: Sha)
      reads this
    {
      lastVerified.Some? ==>
        && Appended(sha, verifiedRows)
        && VerdictOn(sha, verifiedRows) == Sound(lastVerified.value.1, lastVerified.value.0)
    }

    constructor (db: Database)
      requires CollisionFree(db.sha) && Appended(db.sha, db.rows)
      ensures this.db == db && Valid()
    {
      this.db := db;
      lastVerified := None;
      verifiedRows := [];
    }

    /** Appends one event inside a transaction (joining an open one); refuses input the schema refuses. */
    method AppendEvent(entry: Entry) returns (raised: bool)
      requires Valid() && InputOk(entry.input)
      modifies db
      ensures Valid()
      ensures var e := entry.input;
              raised <==> e.tenant == "" || e.actor == "" || e.action == "" || e.objectType == "" || e.objectId == ""
      ensures db.rows == if raised then old(db.rows)
                         else old(db.rows) + [NewRow(db.sha, old(db.rows), entry.input, entry.id, entry.ts)]
      ensures !raised ==>
                var row := db.rows[|old(db.rows)|];
                && Holds(row, entry.input, entry.id, entry.ts)
                && (old(db.rows) == [] ==> row.number == 1 && row.prevHash == GENESIS)
                && (old(db.rows) != [] ==>
                      var last := old(db.rows)[|old(db.rows)| - 1];
                      row.number == last.number + 1 && row.prevHash == last.hash)
    {
      raised := db.Run(Append(entry));
      AppendHolds(db.sha, old(db.rows), entry.input, entry.id, entry.ts);
      AppendKeepsAppended(db.sha, old(db.rows), entry.input, entry.id, entry.ts);
    }

    /** Walks the whole chain. */
    method Verify() returns (v: Verdict)
      ensures v == VerdictOn(db.sha, db.rows)
    {
      var prev := GENESIS;
      var expected := 1;
      var i := 0;
      while i < |db.rows|
        invariant 0 <= i <= |db.rows|
        invariant expected == i + 1 && prev == HeadHash(db.rows[..i])
        invariant VerdictOn(db.sha, db.rows) == VerdictFrom(db.sha, db.rows, i)
      {
        var row := db.rows[i];
        if ReadState(row.previousState).None? || ReadState(row.newState).None? || ReadState(row.evidence).None? {
          return Unparsable(row.number);
        }
        if row.number != expected {
          return Broken(row.number, SequenceGap);
        }
        if row.prevHash != prev {
          return Broken(row.number, PreviousHashMismatch);
        }
        if db.sha(ReadContent(row)) != row.hash {
          return Broken(row.number, ContentHashMismatch);
        }
        prev := row.hash;
        expected := expected + 1;
        i := i + 1;
        assert db.rows[..i][i - 1] == row;
      }
      assert db.rows[..i] == db.rows;
      return Sound(|db.rows|, prev);
    }

    /** Re-walks only when the head changed, and still always answers what a full walk would. */
    method VerifyCached() returns (v: Verdict)
      requires Valid()
      modifies this
      ensures Valid() && db.rows == old(db.rows)
      ensures v == VerdictOn(db.sha, db.rows) == CachedAnswer(db.sha, old(lastVerified), db.rows)
      ensures lastVerified == MemoryAfter(db.sha, old(lastVerified), db.rows)
    {
      if lastVerified.Some? && db.rows != [] {
        var head := db.rows[|db.rows| - 1];
        if head.hash == lastVerified.value.0 && head.number == lastVerified.value.1 {
          CachedVerdictIsTrue(db.sha, verifiedRows, db.rows);
          return Sound(lastVerified.value.1, lastVerified.value.0);
        }
      }
      v := Verify();
      if v.Sound? {
        lastVerified := Some((v.headHash, v.count));
        verifiedRows := db.rows;
      } else {
        lastVerified := None;
      }
    }
  }
}
