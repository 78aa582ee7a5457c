/** Cached verification over whole sessions: programs, explicit transactions and questions in any order. */
module AuditSessions {
  import opened Basics
  import opened LedgerModel
  import opened LedgerTheorems
  import opened Transactions

  /** What happens to a ledger and its database while the process lives. */
  datatype Call =
    | Execute(program: Program) // inside the open transaction, if there is one
    | Begin                     // an outermost transaction opens; nested ones join and are part of a program
    | Commit
    | Rollback
    | AskCached                 // verifyCached()

  datatype Session = Session(rows: seq<Row>, begun: Option<seq<Row>>, memory: Memory)

  const OPENED := Session([], None, None)

  function Step(sha: Sha, c: Call, s: Session): Session {
    match c
    case Execute(p) => s.(rows := Exec(sha, p, s.rows, s.begun.Some?).0)
    case Begin => if s.begun.Some? then s else s.(begun := Some(s.rows))
    case Commit => s.(begun := None)
    case Rollback => if s.begun.Some? then s.(rows := s.begun.value, begun := None) else s
    case AskCached => s.(memory := MemoryAfter(sha, s.memory, s.rows))
  }

  function RunCalls(sha: Sha, calls: seq<Call>, s: Session): Session
    decreases |calls|
  {
    if calls == [] then s else RunCalls(sha, calls[1..], Step(sha, calls[0], s))
  }

  predicate CallsOk(calls: seq<Call>) {
    forall c :: c in calls && c.Execute? ==> InputsOk(c.program)
  }

  /** The memory is of a table that was appended and verified, though it may have been rolled back since. */
  ghost predicate MemoryOk(sha: Sha, memory: Memory) {
    memory.Some? ==>
      exists earlier ::
        Appended(sha, earlier) && VerdictOn(sha, earlier) == Sound(memory.value.1, memory.value.0)
  }

  ghost predicate SessionOk(sha: Sha, s: Session) {
    Appended(sha, s.rows) && (s.begun.Some? ==> Appended(sha, s.begun.value)) && MemoryOk(sha, s.memory)
  }

  lemma AskKeepsMemory(sha: Sha, memory: Memory, rows: seq<Row>)
    requires Appended(sha, rows) && MemoryOk(sha, memory)
    ensures MemoryOk(sha, MemoryAfter(sha, memory, rows))
  {
    hide Appended, VerdictOn;
  }

  lemma StepKeeps(sha: Sha, c: Call, s: Session)
    requires SessionOk(sha, s) && (c.Execute? ==> InputsOk(c.program))
    ensures SessionOk(sha, Step(sha, c, s))
  {
    hide Appended, MemoryOk, Exec, MemoryAfter;
    match c
    case Execute(p) => ExecKeepsAppended(sha, p, s.rows, s.begun.Some?);
    case AskCached => AskKeepsMemory(sha, s.memory, s.rows);
    case _ =>
  }

  lemma {:induction false} RunKeeps(sha: Sha, calls: seq<Call>, s: Session)
    requires SessionOk(sha, s) && CallsOk(calls)
    ensures SessionOk(sha, RunCalls(sha, calls, s))
    decreases |calls|
  {
    hide SessionOk, Step;
    if calls != [] {
      StepKeeps(sha, calls[0], s);
      RunKeeps(sha, calls[1..], Step(sha, calls[0], s));
    }
  }

  /**
    After any session - programs, commits and rollbacks, earlier questions, some of them asked inside transactions
    that were rolled back - the cached answer is the one a full walk would give.
   */
  lemma CachedAnswersAreTrue(sha: Sha, calls: seq<Call>)
    requires CollisionFree(sha) && CallsOk(calls)
    ensures var s := RunCalls(sha, calls, OPENED); CachedAnswer(sha, s.memory, s.rows) == VerdictOn(sha, s.rows)
  {
    hide RunCalls, CallsOk, CollisionFree, VerdictOn, Appended;
    var s := RunCalls(sha, calls, OPENED);
    assert Appended(sha, []) by { EmptyIsAppended(sha); }
    RunKeeps(sha, calls, OPENED);
    if CacheHits(s.memory, s.rows) {
      var earlier :| Appended(sha, earlier) && VerdictOn(sha, earlier) == Sound(s.memory.value.1, s.memory.value.0);
      CachedVerdictIsTrue(sha, earlier, s.rows);
    }
  }

  lemma EmptyIsAppended(sha: Sha)
    ensures Appended(sha, [])
  {}
}
