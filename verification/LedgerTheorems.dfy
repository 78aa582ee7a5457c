/** What the chain guarantees: soundness of verification, tamper evidence, history from the head, sound caching. */
module LedgerTheorems {
  import opened Basics
  import opened CanonicalJson
  import opened CanonicalText
  import opened LedgerModel

  // ---------- verification ----------

  /** The walk reports sound exactly for intact chains, with the number of rows and the last hash. */
  lemma {:induction false} VerdictMeansIntact(sha: Sha, rows: seq<Row>, i: nat)
    requires i <= |rows| && forall j :: 0 <= j < i ==> RowIntact(sha, rows, j)
    ensures VerdictFrom(sha, rows, i).Sound? <==> Intact(sha, rows)
    ensures VerdictFrom(sha, rows, i).Sound? ==> VerdictFrom(sha, rows, i) == Sound(|rows|, HeadHash(rows))
    decreases |rows| - i
  {
    if i < |rows| && RowIntact(sha, rows, i) {
      VerdictMeansIntact(sha, rows, i + 1);
    }
  }

  /** A good prefix is skipped: the verdict is that of the first row that is not intact. */
  lemma {:induction false} VerdictSkips(sha: Sha, rows: seq<Row>, from: nat, i: nat)
    requires from <= i <= |rows| && forall j :: from <= j < i ==> RowIntact(sha, rows, j)
    ensures VerdictFrom(sha, rows, from) == VerdictFrom(sha, rows, i)
    decreases i - from
  {
    if from < i {
      assert RowIntact(sha, rows, from);
      VerdictSkips(sha, rows, from + 1, i);
    }
  }

  // ---------- appending ----------

  /** Optional ids are absent or non-empty; this is what the code needs and the schema does not ask for. */
  predicate IdsNonEmpty(e: Input) {
    e.requestId != Some("") && e.policyId != Some("") && e.modelId != Some("") && e.approvalId != Some("")
  }

  /** A stored state reads back to the text that was hashed. */
  lemma StateSurvives(v: Json)
    requires WellFormed(v)
    ensures ReadState(Column(v)) == Some(StateText(v))
  {
    if v != Undefined {
      StoredTextIsStable(v);
    }
  }

  lemma ReadBack(sha: Sha, rows: seq<Row>, e: Input, id: string, ts: int)
    requires InputOk(e)
    ensures Readable(NewRow(sha, rows, e, id, ts))
    ensures ReadContent(NewRow(sha, rows, e, id, ts))
         == AppendedContent(rows, e, id, ts).(requestId := ReadId(e.requestId), policyId := ReadId(e.policyId),
                                              modelId := ReadId(e.modelId), approvalId := ReadId(e.approvalId))
  {
    StateSurvives(e.previousState);
    StateSurvives(e.newState);
    StateSurvives(e.evidence);
  }

  /** Appending keeps an intact chain intact exactly when no optional id is the empty string. */
  lemma AppendKeepsIntact(sha: Sha, rows: seq<Row>, e: Input, id: string, ts: int)
    requires CollisionFree(sha) && Intact(sha, rows) && InputOk(e)
    ensures Intact(sha, rows + [NewRow(sha, rows, e, id, ts)]) <==> IdsNonEmpty(e)
  {
    AppendRow(sha, rows, e, id, ts);
    ReadBack(sha, rows, e, id, ts);
    var all := rows + [NewRow(sha, rows, e, id, ts)];
    var hashed, read := AppendedContent(rows, e, id, ts), ReadContent(NewRow(sha, rows, e, id, ts));
    assert sha(hashed) == sha(read) <==> hashed == read;
    assert hashed == read <==> IdsNonEmpty(e);
    assert RowIntact(sha, all, |rows|) <==> IdsNonEmpty(e);
  }

  /** The appended row holds what was handed in. */
  lemma AppendHolds(sha: Sha, rows: seq<Row>, e: Input, id: string, ts: int)
    requires InputOk(e)
    ensures Holds(NewRow(sha, rows, e, id, ts), e, id, ts)
  {
    hide ReadState, WellFormed, CanonicalTextOf;
    StateSurvives(e.previousState);
    StateSurvives(e.newState);
    StateSurvives(e.evidence);
  }

  /** Optional ids that read alike: the same, or both absent or empty. */
  predicate ReadsAlike(a: Option<string>, b: Option<string>) {
    a == b || (a in {None, Some("")} && b in {None, Some("")})
  }

  /** What is digested is every column: two rows read the same exactly when no column but the hash tells them apart. */
  lemma ReadingIsEveryColumn(a: Row, b: Row)
    requires Readable(a) && Readable(b)
    ensures ReadContent(a) == ReadContent(b) <==>
      && a.number == b.number && a.id == b.id && a.ts == b.ts
      && a.tenant == b.tenant && a.actor == b.actor && a.action == b.action
      && a.objectType == b.objectType && a.objectId == b.objectId
      && ReadsAlike(a.requestId, b.requestId) && ReadsAlike(a.policyId, b.policyId)
      && ReadsAlike(a.modelId, b.modelId) && ReadsAlike(a.approvalId, b.approvalId)
      && ReadState(a.previousState) == ReadState(b.previousState)
      && ReadState(a.newState) == ReadState(b.newState)
      && ReadState(a.evidence) == ReadState(b.evidence)
      && a.prevHash == b.prevHash
  {
    hide ReadState;
  }

  lemma AppendRow(sha: Sha, rows: seq<Row>, e: Input, id: string, ts: int)
    requires Intact(sha, rows)
    ensures var all := rows + [NewRow(sha, rows, e, id, ts)];
            && (forall i :: 0 <= i < |rows| ==> RowIntact(sha, all, i))
            && all[..|rows|] == rows && all[|rows|].number == |rows| + 1
  {
    var all := rows + [NewRow(sha, rows, e, id, ts)];
    forall i | 0 <= i < |rows| ensures RowIntact(sha, all, i) {
      assert RowIntact(sha, rows, i);
      assert all[..i] == rows[..i];
    }
    if rows != [] {
      assert RowIntact(sha, rows, |rows| - 1);
    }
  }

  // ---------- the head determines the history ----------

  /** Two rows say the same: same digest and same content when read. */
  predicate SaySame(a: Row, b: Row) {
    Readable(a) && Readable(b) && a.hash == b.hash && ReadContent(a) == ReadContent(b)
  }

  /** Two non-empty intact ledgers with the same head hash hold the same events in the same order. */
  lemma {:induction false} HeadDeterminesHistory(sha: Sha, a: seq<Row>, b: seq<Row>)
    requires CollisionFree(sha) && Intact(sha, a) && Intact(sha, b)
    requires a != [] && b != [] && HeadHash(a) == HeadHash(b)
    ensures |a| == |b| && forall i :: 0 <= i < |a| ==> SaySame(a[i], b[i])
    decreases |a|
  {
    var m, n := |a| - 1, |b| - 1;
    LastRowsAgree(sha, a, b);
    IntactInit(sha, a);
    IntactInit(sha, b);
    hide Intact, SaySame, HeadHash;
    if m > 0 {
      HeadDeterminesHistory(sha, a[..m], b[..n]);
    }
    forall i | 0 <= i < |a| ensures SaySame(a[i], b[i]) {
      if i < m {
        assert a[i] == a[..m][i] && b[i] == b[..n][i];
      }
    }
  }

  lemma IntactInit(sha: Sha, rows: seq<Row>)
    requires Intact(sha, rows) && rows != []
    ensures Intact(sha, rows[..|rows| - 1])
  {
    var init := rows[..|rows| - 1];
    forall i | 0 <= i < |init| ensures RowIntact(sha, init, i) {
      assert RowIntact(sha, rows, i);
      assert init[..i] == rows[..i];
    }
  }

  /** Equal head hashes mean equal last contents, hence equal positions and equal previous hashes. */
  lemma LastRowsAgree(sha: Sha, a: seq<Row>, b: seq<Row>)
    requires CollisionFree(sha) && Intact(sha, a) && Intact(sha, b)
    requires a != [] && b != [] && HeadHash(a) == HeadHash(b)
    ensures |a| == |b| && SaySame(a[|a| - 1], b[|b| - 1]) && HeadHash(a[..|a| - 1]) == HeadHash(b[..|b| - 1])
  {
    var m, n := |a| - 1, |b| - 1;
    assert RowIntact(sha, a, m) && RowIntact(sha, b, n);
    assert ReadContent(a[m]) == ReadContent(b[n]);
  }

  // ---------- tampering ----------

  lemma PrefixIntact(sha: Sha, rows: seq<Row>, other: seq<Row>, k: nat)
    requires Intact(sha, rows) && k <= |rows| && k <= |other| && other[..k] == rows[..k]
    ensures forall j :: 0 <= j < k ==> RowIntact(sha, other, j)
  {
    forall j | 0 <= j < k ensures RowIntact(sha, other, j) {
      assert RowIntact(sha, rows, j);
      assert other[j] == other[..k][j] == rows[..k][j];
      assert other[..j] == other[..k][..j] == rows[..j];
    }
  }

  /**
    Changing row `i` but neither its position nor its stored digest goes unreported exactly when it reads back the
    same; otherwise the report is about exactly that row, as unparsable if its states no longer parse.
   */
  lemma EditIsReported(sha: Sha, rows: seq<Row>, i: nat, forged: Row)
    requires CollisionFree(sha) && Intact(sha, rows) && i < |rows|
    requires forged.number == rows[i].number && forged.hash == rows[i].hash
    ensures var v := VerdictOn(sha, rows[i := forged]);
            && (v.Sound? <==> Readable(forged) && Readable(rows[i]) && ReadContent(forged) == ReadContent(rows[i]))
            && (!v.Sound? ==> v.at == i + 1)
            && (v.Unparsable? <==> !Readable(forged))
  {
    var bad := rows[i := forged];
    assert RowIntact(sha, rows, i);
    PrefixIntact(sha, rows, bad, i);
    VerdictSkips(sha, bad, 0, i);
    assert bad[..i] == rows[..i];
    if Readable(forged) && ReadContent(forged) == ReadContent(rows[i]) {
      SameReadingIsIntact(sha, rows, i, forged);
      VerdictMeansIntact(sha, bad, 0);
    }
  }

  lemma SameReadingIsIntact(sha: Sha, rows: seq<Row>, i: nat, forged: Row)
    requires Intact(sha, rows) && i < |rows| && Readable(forged) && Readable(rows[i])
    requires forged.hash == rows[i].hash && ReadContent(forged) == ReadContent(rows[i])
    ensures Intact(sha, rows[i := forged])
  {
    var bad := rows[i := forged];
    forall j | 0 <= j < |bad| ensures RowIntact(sha, bad, j) {
      assert RowIntact(sha, rows, j);
      assert HeadHash(bad[..j]) == HeadHash(rows[..j]) by {
        if j > 0 {
          assert bad[..j][j - 1] == bad[j - 1] && rows[..j][j - 1] == rows[j - 1];
        }
      }
    }
  }

  /** Replacing a stored state by other text that parses goes unreported exactly when the text says the same value. */
  lemma ForgedStateIsReported(sha: Sha, rows: seq<Row>, i: nat, v: Json, forged: Text)
    requires CollisionFree(sha) && Intact(sha, rows) && i < |rows|
    requires WellFormed(v) && v != Undefined && rows[i].newState == Column(v)
    requires Parse(forged).Some?
    ensures var row := rows[i].(newState := Some(forged));
            VerdictOn(sha, rows[i := row]).Sound? <==> Same(Parse(forged).value, Nulled(v))
  {
    var row := rows[i].(newState := Some(forged));
    assert RowIntact(sha, rows, i);
    EditIsReported(sha, rows, i, row);
    AnyTextDecides(forged, v);
    StateSurvives(v);
    assert ReadState(row.newState) == Some(CanonicalTextOf(Parse(forged).value));
  }

  /** Giving a row another, unused, number moves it to the other end of the walk; the gap is reported. */
  lemma RenumberingIsReported(sha: Sha, rows: seq<Row>, i: nat, forged: Row)
    requires Intact(sha, rows) && i < |rows| && Readable(forged)
    ensures forged.number <= 0 ==>
      VerdictOn(sha, [forged] + rows[..i] + rows[i + 1..]) == Broken(forged.number, SequenceGap)
    ensures forged.number > |rows| ==>
      VerdictOn(sha, rows[..i] + rows[i + 1..] + [forged])
        == Broken(if i + 1 < |rows| then i + 2 else forged.number, SequenceGap)
  {
    if forged.number > |rows| {
      var bad := rows[..i] + rows[i + 1..] + [forged];
      assert bad[..i] == rows[..i];
      PrefixIntact(sha, rows, bad, i);
      VerdictSkips(sha, bad, 0, i);
      if i + 1 < |rows| {
        assert RowIntact(sha, rows, i + 1);
        assert bad[i] == rows[i + 1];
      } else {
        assert bad[i] == forged;
      }
    }
  }

  /**
    Rewriting a row that is not the last, digest included, so that it is consistent again is reported at the next
    row.
   */
  lemma RewriteIsReported(sha: Sha, rows: seq<Row>, i: nat, forged: Row)
    requires CollisionFree(sha) && Intact(sha, rows) && i + 1 < |rows|
    requires RowIntact(sha, rows[i := forged], i) && Readable(rows[i]) && ReadContent(forged) != ReadContent(rows[i])
    ensures VerdictOn(sha, rows[i := forged]) == Broken(i + 2, PreviousHashMismatch)
  {
    hide Intact, ReadContent, Readable;
    var bad := rows[i := forged];
    assert RowIntact(sha, rows, i) && RowIntact(sha, rows, i + 1) by { IntactAt(sha, rows); }
    assert forged.hash != rows[i].hash by {
      assert forged.hash == sha(ReadContent(forged)) && rows[i].hash == sha(ReadContent(rows[i]));
    }
    assert bad[..i] == rows[..i];
    PrefixIntact(sha, rows, bad, i);
    VerdictSkips(sha, bad, 0, i + 1);
    assert HeadHash(rows[..i + 1]) == rows[i].hash && HeadHash(bad[..i + 1]) == forged.hash;
    assert bad[i + 1] == rows[i + 1];
  }

  lemma IntactAt(sha: Sha, rows: seq<Row>)
    requires Intact(sha, rows)
    ensures forall i :: 0 <= i < |rows| ==> RowIntact(sha, rows, i)
  {}

  /** Removing a row that is not the last is reported, as a gap, at the row after it; removing the last is not seen. */
  lemma RemovalIsReported(sha: Sha, rows: seq<Row>, i: nat)
    requires Intact(sha, rows) && i < |rows|
    ensures i + 1 < |rows| ==> VerdictOn(sha, rows[..i] + rows[i + 1..]) == Broken(i + 2, SequenceGap)
    ensures i + 1 == |rows| ==> VerdictOn(sha, rows[..i]) == Sound(i, HeadHash(rows[..i]))
  {
    if i + 1 < |rows| {
      var bad := rows[..i] + rows[i + 1..];
      assert RowIntact(sha, rows, i + 1);
      assert bad[i] == rows[i + 1];
      assert bad[..i] == rows[..i];
      PrefixIntact(sha, rows, bad, i);
      VerdictSkips(sha, bad, 0, i);
    } else {
      assert rows[..i][..i] == rows[..i];
      PrefixIntact(sha, rows, rows[..i], i);
      VerdictSkips(sha, rows[..i], 0, i);
    }
  }

  // ---------- caching ----------

  /** What was digested when the row was appended, recovered from the row: ids as stored, states as their text. */
  function RawContent(r: Row): Content {
    Content(r.number, r.id, r.ts, r.tenant, r.actor, r.action, r.objectType, r.objectId,
            r.requestId, r.policyId, r.modelId, r.approvalId,
            RawState(r.previousState), RawState(r.newState), RawState(r.evidence), r.prevHash)
  }

  function RawState(c: Option<Text>): Text {
    if c.None? then CanonicalTextOf(Null) else c.value
  }

  /** Text that canonicalises to itself; everything `append` stores is of this kind. */
  predicate Stable(c: Option<Text>) {
    c.Some? ==> c.value != [] && Parse(c.value).Some? && CanonicalTextOf(Parse(c.value).value) == c.value
  }

  /** Row `i` is one `append` put there (whether or not its ids were empty). */
  predicate RowAppended(sha: Sha, rows: seq<Row>, i: nat)
    requires i < |rows|
  {
    var r := rows[i];
    && r.number == i + 1
    && r.prevHash == HeadHash(rows[..i])
    && r.hash == sha(RawContent(r))
    && Stable(r.previousState) && Stable(r.newState) && Stable(r.evidence)
  }

  predicate Appended(sha: Sha, rows: seq<Row>) {
    forall i :: 0 <= i < |rows| ==> RowAppended(sha, rows, i)
  }

  lemma AppendKeepsAppended(sha: Sha, rows: seq<Row>, e: Input, id: string, ts: int)
    requires Appended(sha, rows) && InputOk(e)
    ensures Appended(sha, rows + [NewRow(sha, rows, e, id, ts)])
  {
    var r := NewRow(sha, rows, e, id, ts);
    var all := rows + [r];
    forall i | 0 <= i < |all| ensures RowAppended(sha, all, i) {
      if i < |rows| {
        assert RowAppended(sha, rows, i);
        assert all[..i] == rows[..i];
      } else {
        assert all[..i] == rows;
        if rows != [] {
          assert RowAppended(sha, rows, |rows| - 1);
        }
        StableColumn(e.previousState);
        StableColumn(e.newState);
        StableColumn(e.evidence);
      }
    }
  }

  lemma StableColumn(v: Json)
    requires WellFormed(v)
    ensures Stable(Column(v)) && RawState(Column(v)) == StateText(v)
  {
    if v != Undefined {
      StoredTextIsStable(v);
    }
  }

  lemma AppendedPrefix(sha: Sha, rows: seq<Row>, k: nat)
    requires Appended(sha, rows) && k <= |rows|
    ensures Appended(sha, rows[..k])
  {
    forall i | 0 <= i < k ensures RowAppended(sha, rows[..k], i) {
      assert RowAppended(sha, rows, i);
      assert rows[..k][..i] == rows[..i];
    }
  }

  /** Two append histories with the same head hash were given the same content all the way down. */
  lemma {:induction false} SameHeadSameContent(sha: Sha, a: seq<Row>, b: seq<Row>)
    requires CollisionFree(sha) && Appended(sha, a) && Appended(sha, b)
    requires a != [] && b != [] && HeadHash(a) == HeadHash(b)
    ensures |a| == |b| && forall i :: 0 <= i < |a| ==> RawContent(a[i]) == RawContent(b[i]) && a[i].hash == b[i].hash
    decreases |a|
  {
    var m, n := |a| - 1, |b| - 1;
    assert RowAppended(sha, a, m) && RowAppended(sha, b, n);
    assert RawContent(a[m]) == RawContent(b[n]);
    assert m == n;
    if m > 0 {
      AppendedPrefix(sha, a, m);
      AppendedPrefix(sha, b, n);
      SameHeadSameContent(sha, a[..m], b[..n]);
    }
    forall i | 0 <= i < |a| ensures RawContent(a[i]) == RawContent(b[i]) && a[i].hash == b[i].hash {
      if i < m {
        assert a[i] == a[..m][i] && b[i] == b[..n][i];
      }
    }
  }

  lemma RawDeterminesRead(a: Row, b: Row)
    requires RawContent(a) == RawContent(b)
    requires Stable(a.previousState) && Stable(a.newState) && Stable(a.evidence)
    requires Stable(b.previousState) && Stable(b.newState) && Stable(b.evidence)
    ensures Readable(a) && Readable(b) && ReadContent(a) == ReadContent(b)
  {}

  lemma SameContentSameIntact(sha: Sha, a: seq<Row>, b: seq<Row>)
    requires Appended(sha, a) && Appended(sha, b) && |a| == |b|
    requires forall i :: 0 <= i < |a| ==> RawContent(a[i]) == RawContent(b[i]) && a[i].hash == b[i].hash
    requires Intact(sha, a)
    ensures Intact(sha, b)
  {
    forall i | 0 <= i < |b| ensures RowIntact(sha, b, i) {
      assert RowIntact(sha, a, i) && RowAppended(sha, a, i) && RowAppended(sha, b, i);
      RawDeterminesRead(a[i], b[i]);
    }
  }

  /**
    A cached verdict is the true one. `earlier` is the table that was verified, `now` the table at the cached call;
    both came about by appending (possibly after rolling back), and the present head is the remembered one.
   */
  lemma CachedVerdictIsTrue(sha: Sha, earlier: seq<Row>, now: seq<Row>)
    requires CollisionFree(sha) && Appended(sha, earlier) && Appended(sha, now)
    requires VerdictOn(sha, earlier).Sound? && now != []
    requires HeadHash(now) == VerdictOn(sha, earlier).headHash && HeadSeq(now) == VerdictOn(sha, earlier).count
    ensures VerdictOn(sha, now) == VerdictOn(sha, earlier)
  {
    VerdictMeansIntact(sha, earlier, 0);
    VerdictMeansIntact(sha, now, 0);
    assert RowAppended(sha, now, |now| - 1);
    SameHeadSameContent(sha, earlier, now);
    SameContentSameIntact(sha, earlier, now);
  }
}
