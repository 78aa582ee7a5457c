/**
  The hash-chained audit ledger as values: rows, what `append` stores, what is hashed, and what it means for the
  chain to be intact. The digest is a parameter `sha`; results that need it say that it is collision free.
 */
module LedgerModel {
  import opened Basics
  import opened CanonicalJson
  import opened CanonicalText

  type Digest = string

  /** `AuditEventInput`; an absent state is `Undefined`. */
  datatype Input = Input(
    tenant: string, actor: string, action: string, objectType: string, objectId: string,
    requestId: Option<string>, policyId: Option<string>, modelId: Option<string>, approvalId: Option<string>,
    previousState: Json, newState: Json, evidence: Json)

  /** A row of audit_events; state columns hold JSON text or NULL. */
  datatype Row = Row(
    number: int, id: string, ts: int,
    tenant: string, actor: string, action: string, objectType: string, objectId: string,
    requestId: Option<string>, policyId: Option<string>, modelId: Option<string>, approvalId: Option<string>,
    previousState: Option<Text>, newState: Option<Text>, evidence: Option<Text>,
    prevHash: Digest, hash: Digest)

  /** The sixteen fields that go into a digest; states by their canonical text. */
  datatype Content = Content(
    number: int, id: string, ts: int,
    tenant: string, actor: string, action: string, objectType: string, objectId: string,
    requestId: Option<string>, policyId: Option<string>, modelId: Option<string>, approvalId: Option<string>,
    previousState: Text, newState: Text, evidence: Text,
    prevHash: Digest)

  type Sha = Content -> Digest

  ghost predicate CollisionFree(sha: Sha) {
    forall a, b | sha(a) == sha(b) :: a == b
  }

  /** The digest an empty ledger starts from. */
  const GENESIS: Digest := "evidentia-audit-genesis"

  // ---------- appending ----------

  /** The schema's `min(1)` fields. */
  predicate Accepted(e: Input) {
    e.tenant != "" && e.actor != "" && e.action != "" && e.objectType != "" && e.objectId != ""
  }

  /** States are ordinary objects (distinct keys). */
  predicate InputOk(e: Input) {
    WellFormed(e.previousState) && WellFormed(e.newState) && WellFormed(e.evidence)
  }

  /** Text of `state ?? null`. */
  function StateText(v: Json): Text {
    if v == Undefined then CanonicalTextOf(Null) else CanonicalTextOf(v)
  }

  function Column(v: Json): Option<Text> {
    if v == Undefined then None else Some(CanonicalTextOf(v))
  }

  function HeadSeq(rows: seq<Row>): int {
    if rows == [] then 0 else rows[|rows| - 1].number
  }

  function HeadHash(rows: seq<Row>): Digest {
    if rows == [] then GENESIS else rows[|rows| - 1].hash
  }

  function AppendedContent(rows: seq<Row>, e: Input, id: string, ts: int): Content {
    Content(HeadSeq(rows) + 1, id, ts, e.tenant, e.actor, e.action, e.objectType, e.objectId,
            e.requestId, e.policyId, e.modelId, e.approvalId,
            StateText(e.previousState), StateText(e.newState), StateText(e.evidence), HeadHash(rows))
  }

  function NewRow(sha: Sha, rows: seq<Row>, e: Input, id: string, ts: int): Row {
    Row(HeadSeq(rows) + 1, id, ts, e.tenant, e.actor, e.action, e.objectType, e.objectId,
        e.requestId, e.policyId, e.modelId, e.approvalId,
        Column(e.previousState), Column(e.newState), Column(e.evidence),
        HeadHash(rows), sha(AppendedContent(rows, e, id, ts)))
  }

  // ---------- reading back and verifying ----------

  /** Reading drops falsy ids. */
  function ReadId(c: Option<string>): Option<string> {
    if c == Some("") then None else c
  }

  /** Reading a state column parses it and hashing canonicalises it again; None when the text does not parse. */
  function ReadState(c: Option<Text>): Option<Text> {
    if c.None? || c.value == [] then Some(CanonicalTextOf(Null))
    else
      var v := Parse(c.value);
      if v.Some? then Some(CanonicalTextOf(v.value)) else None
  }

  predicate Readable(r: Row) {
    ReadState(r.previousState).Some? && ReadState(r.newState).Some? && ReadState(r.evidence).Some?
  }

  /** What `hashEvent(rowToEvent(row))` digests. */
  function ReadContent(r: Row): Content
    requires Readable(r)
  {
    Content(r.number, r.id, r.ts, r.tenant, r.actor, r.action, r.objectType, r.objectId,
            ReadId(r.requestId), ReadId(r.policyId), ReadId(r.modelId), ReadId(r.approvalId),
            ReadState(r.previousState).value, ReadState(r.newState).value, ReadState(r.evidence).value, r.prevHash)
  }

  /** A state column that reads back as the canonical text of `state`, null's when it was not given. */
  predicate HoldsState(column: Option<Text>, state: Json) {
    && (column.None? <==> state == Undefined)
    && ReadState(column) == Some(if state == Undefined then CanonicalTextOf(Null) else CanonicalTextOf(state))
  }

  /** Row `r` says of event `id` at `ts` what was handed in, column by column. */
  predicate Holds(r: Row, e: Input, id: string, ts: int) {
    && r.id == id && r.ts == ts
    && r.tenant == e.tenant && r.actor == e.actor && r.action == e.action
    && r.objectType == e.objectType && r.objectId == e.objectId
    && r.requestId == e.requestId && r.policyId == e.policyId
    && r.modelId == e.modelId && r.approvalId == e.approvalId
    && HoldsState(r.previousState, e.previousState)
    && HoldsState(r.newState, e.newState)
    && HoldsState(r.evidence, e.evidence)
  }

  predicate RowIntact(sha: Sha, rows: seq<Row>, i: nat)
    requires i < |rows|
  {
    && Readable(rows[i])
    && rows[i].number == i + 1
    && rows[i].prevHash == HeadHash(rows[..i])
    && rows[i].hash == sha(ReadContent(rows[i]))
  }

  predicate Intact(sha: Sha, rows: seq<Row>) {
    forall i :: 0 <= i < |rows| ==> RowIntact(sha, rows, i)
  }

  datatype Reason = SequenceGap | PreviousHashMismatch | ContentHashMismatch

  datatype Verdict = Sound(count: nat, headHash: Digest) | Broken(at: int, reason: Reason) | Unparsable(at: int)

  /** The verdict on the first bad row, checked in the order of the code; `i` rows are known to be good. */
  function VerdictFrom(sha: Sha, rows: seq<Row>, i: nat): Verdict
    requires i <= |rows|
    decreases |rows| - i
  {
    if i == |rows| then Sound(|rows|, HeadHash(rows))
    else
      var r := rows[i];
      if !Readable(r) then Unparsable(r.number)
      else if r.number != i + 1 then Broken(r.number, SequenceGap)
      else if r.prevHash != HeadHash(rows[..i]) then Broken(r.number, PreviousHashMismatch)
      else if sha(ReadContent(r)) != r.hash then Broken(r.number, ContentHashMismatch)
      else VerdictFrom(sha, rows, i + 1)
  }

  function VerdictOn(sha: Sha, rows: seq<Row>): Verdict {
    VerdictFrom(sha, rows, 0)
  }

  // ---------- cached verification ----------

  /** Head hash and count of the last successful walk, if any. */
  type Memory = Option<(Digest, nat)>

  predicate CacheHits(memory: Memory, rows: seq<Row>) {
    memory.Some? && rows != [] && (HeadHash(rows), HeadSeq(rows)) == memory.value
  }

  function CachedAnswer(sha: Sha, memory: Memory, rows: seq<Row>): Verdict {
    if CacheHits(memory, rows) then Sound(memory.value.1, memory.value.0) else VerdictOn(sha, rows)
  }

  function MemoryAfter(sha: Sha, memory: Memory, rows: seq<Row>): Memory {
    if CacheHits(memory, rows) then memory
    else
      var v := VerdictOn(sha, rows);
      if v.Sound? then Some((v.headHash, v.count)) else None
  }
}
