/**
  Hard budgets over whole runs of the router. A request is stopped once a budget is exhausted, and before that it can
  add at most one priced call and at most `maxAttempts` calls; so the overshoot is bounded, at any moment and as the
  window slides.
 */
module BudgetBound {
  import opened Basics
  import opened ModelAccess
  import opened CostMeter
  import opened Router

  datatype Op =
    | CompleteOp(req: Request, now: int, tries: seq<Try>)
    | EmbedOp(req: Request, now: int, t: Try)

  /** The clock reads in order: the budget check, then the start and end of each attempt. */
  predicate InOrder(from: int, tries: seq<Try>) {
    && (forall i :: 0 <= i < |tries| ==> from <= tries[i].started <= tries[i].ended)
    && (forall i, j :: 0 <= i < j < |tries| ==> tries[i].ended <= tries[j].started)
  }

  function TriesOf(op: Op): seq<Try> {
    if op.CompleteOp? then op.tries else [op.t]
  }

  /** The last clock reading an operation can have made. */
  function LastReading(op: Op): int {
    var tries := TriesOf(op);
    if tries == [] then op.now else tries[|tries| - 1].ended
  }

  predicate OpOk(cfg: Config, clock: int, op: Op) {
    && clock <= op.now && InOrder(op.now, TriesOf(op))
    && (op.CompleteOp? ==> EnoughTries(cfg, op.req, op.tries))
  }

  function Step(cfg: Config, books: Books, op: Op): Books
    requires op.CompleteOp? ==> EnoughTries(cfg, op.req, op.tries)
  {
    match op
    case CompleteOp(req, now, tries) => Complete(cfg, books, req, now, tries).0
    case EmbedOp(req, now, t) => Embed(cfg, books, req, now, t).0
  }

  /** The clock does not go back between operations. */
  predicate RunOk(cfg: Config, clock: int, ops: seq<Op>)
    decreases |ops|
  {
    ops != [] ==> OpOk(cfg, clock, ops[0]) && RunOk(cfg, LastReading(ops[0]), ops[1..])
  }

  function Run(cfg: Config, books: Books, clock: int, ops: seq<Op>): Books
    requires RunOk(cfg, clock, ops)
    decreases |ops|
  {
    if ops == [] then books else Run(cfg, Step(cfg, books, ops[0]), LastReading(ops[0]), ops[1..])
  }

  function EndOf(clock: int, ops: seq<Op>): int
    decreases |ops|
  {
    if ops == [] then clock else EndOf(LastReading(ops[0]), ops[1..])
  }

  ghost predicate RegistryOk(cfg: Config) {
    forall t: Name, m :: m in cfg.registry(t) ==> PricesOk(m)
  }

  /** The most calls one request can add. */
  function Burst(cfg: Config): nat {
    if cfg.maxAttempts > 1 then cfg.maxAttempts else 1
  }

  /** No recorded call cost more than `most`. */
  predicate PricedAtMost(calls: seq<Call>, most: real) {
    forall c :: c in calls && c.costEur.Some? ==> c.costEur.value <= most
  }

  predicate NoneMatch(calls: seq<Call>, b: Budget) {
    forall c :: c in calls ==> !Matches(b, c)
  }

  /** The bound: within the limit plus one call, and within the count plus the rest of one request. */
  predicate Within(cfg: Config, calls: seq<Call>, b: Budget, now: int, most: real) {
    && (if b.limitEur <= 0.0 then NoneMatch(calls, b) else Spent(calls, b, now) < b.limitEur + most)
    && (b.maxCalls.Some? ==>
          if b.maxCalls.value <= 0 then NoneMatch(calls, b)
          else CallCount(calls, b, now) <= b.maxCalls.value - 1 + Burst(cfg))
  }

  // ---------- what one operation adds ----------

  /** The rows an operation adds: for its workload, and all but the last free of charge, as they failed. */
  predicate Addition(added: seq<Call>, cfg: Config, op: Op) {
    && (forall c :: c in added ==> c.tenant == op.req.tenant && c.workload == op.req.workload)
    && CostsOk(added)
    && |added| <= Burst(cfg)
    && (forall i :: 0 <= i < |added| - 1 ==> FreeOfCharge(added[i]))
  }

  predicate FreeOfCharge(c: Call) {
    c.costEur.Some? ==> c.costEur.value == 0.0
  }

  lemma RowIsPriced(cfg: Config, req: Request, m: ModelRecord, t: Try, retries: nat)
    requires PricesOk(m)
    ensures var c := CallRow(cfg, req, m, t, retries);
            && c.tenant == req.tenant && c.workload == req.workload
            && (c.costEur.Some? ==> 0.0 <= c.costEur.value)
            && (t.usage.None? ==> FreeOfCharge(c))
  {
    PriceIsNotNegative(m, if t.usage.Some? then t.usage.value else NO_USAGE);
    PriceIsNotNegative(m, NO_USAGE);
    hide PriceCall;
  }

  lemma CompleteAddition(cfg: Config, op: Op, n: nat)
    requires op.CompleteOp? && EnoughTries(cfg, op.req, op.tries) && RegistryOk(cfg)
    requires n == AttemptsMade(op.tries, Limit(cfg, PlanFor(cfg, op.req, Chat).candidates))
    ensures Addition(CallRows(cfg, op.req, PlanFor(cfg, op.req, Chat).candidates, op.tries, n), cfg, op)
  {
    PlanIsExact(cfg, op.req, Chat);
    hide PlanFor, Usable, PriceCall, PricesOk, CallRow;
    var ms := PlanFor(cfg, op.req, Chat).candidates;
    forall i | 0 <= i < n
      ensures var c := CallRow(cfg, op.req, ms[i], op.tries[i], i);
              && c.tenant == op.req.tenant && c.workload == op.req.workload
              && (c.costEur.Some? ==> 0.0 <= c.costEur.value)
              && (op.tries[i].usage.None? ==> FreeOfCharge(c))
    {
      assert ms[i] in ms;
      RowIsPriced(cfg, op.req, ms[i], op.tries[i], i);
    }
  }

  lemma EmbedAddition(cfg: Config, op: Op, m: ModelRecord)
    requires op.EmbedOp? && RegistryOk(cfg) && m in PlanFor(cfg, op.req, Embeddings).candidates
    ensures Addition([CallRow(cfg, op.req, m, op.t, 0)], cfg, op)
  {
    PlanIsExact(cfg, op.req, Embeddings);
    hide PlanFor, Usable, PriceCall, PricesOk, CallRow;
    RowIsPriced(cfg, op.req, m, op.t, 0);
  }

  /** Either nothing is added, or no hard budget over the workload was exhausted and the rows are as `Addition` says. */
  lemma StepAdds(cfg: Config, books: Books, op: Op) returns (added: seq<Call>)
    requires RegistryOk(cfg) && (op.CompleteOp? ==> EnoughTries(cfg, op.req, op.tries))
    ensures Step(cfg, books, op).calls == books.calls + added
    ensures Addition(added, cfg, op)
    ensures added != [] ==>
      ExhaustedHardBudget(cfg.budgets, books.calls, op.req.tenant, op.req.workload, op.now).None?
  {
    hide PlanFor, ExhaustedHardBudget, RegistryOk;
    added := [];
    match op
    case CompleteOp(req, now, tries) =>
      if Refused(cfg, books, req, Chat, now).None? {
        var ms := PlanFor(cfg, req, Chat).candidates;
        var n := AttemptsMade(tries, Limit(cfg, ms));
        CompleteAddition(cfg, op, n);
        added := CallRows(cfg, req, ms, tries, n);
      }
    case EmbedOp(req, now, t) =>
      if Refused(cfg, books, req, Embeddings, now).None? && t.usage.Some? {
        var m := PlanFor(cfg, req, Embeddings).candidates[0];
        EmbedAddition(cfg, op, m);
        added := [CallRow(cfg, req, m, t, 0)];
      }
  }

  lemma {:induction false} AdditionIsBounded(added: seq<Call>, b: Budget, now: int, most: real)
    requires CostsOk(added) && most >= 0.0 && PricedAtMost(added, most)
    requires forall i :: 0 <= i < |added| - 1 ==> FreeOfCharge(added[i])
    ensures Spent(added, b, now) <= most && CallCount(added, b, now) <= |added|
  {
    if added != [] {
      var before := added[..|added| - 1];
      assert forall c :: c in before ==> c in added;
      assert added[|added| - 1] in added;
      if before != [] {
        assert FreeOfCharge(added[|before| - 1]);
      }
      AdditionIsBounded(before, b, now, 0.0);
    }
  }

  // ---------- keeping the bound ----------

  lemma StepStaysWithin(cfg: Config, books: Books, op: Op, b: Budget, most: real)
    requires RegistryOk(cfg) && (op.CompleteOp? ==> EnoughTries(cfg, op.req, op.tries))
    requires b in cfg.budgets && b.hard
    requires most >= 0.0 && PricedAtMost(Step(cfg, books, op).calls, most)
    requires CostsOk(books.calls) && Within(cfg, books.calls, b, op.now, most)
    ensures CostsOk(Step(cfg, books, op).calls) && Within(cfg, Step(cfg, books, op).calls, b, op.now, most)
  {
    var added := StepAdds(cfg, books, op);
    hide Step, RegistryOk;
    if added == [] {
      assert books.calls + added == books.calls;
    } else if Covers(b, op.req.tenant, op.req.workload) {
      hide Spent, CallCount;
      assert !Exhausted(b, books.calls, op.now);
      WindowSlides(books.calls, b, op.now, op.now);
      SpentConcat(books.calls, added, b, op.now);
      AdditionIsBounded(added, b, op.now, most);
    } else {
      hide Spent, CallCount;
      assert NoneMatch(added, b);
      NothingMatches(added, b, op.now);
      SpentConcat(books.calls, added, b, op.now);
    }
  }

  /** Waiting keeps the bound. */
  lemma WaitingStaysWithin(cfg: Config, calls: seq<Call>, b: Budget, earlier: int, later: int, most: real)
    requires CostsOk(calls) && earlier <= later && Within(cfg, calls, b, earlier, most)
    ensures Within(cfg, calls, b, later, most)
  {
    hide Spent, CallCount;
    WindowSlides(calls, b, earlier, later);
  }

  /** Rows are only ever added. */
  lemma {:induction false} RunGrows(cfg: Config, books: Books, clock: int, ops: seq<Op>)
    requires RunOk(cfg, clock, ops)
    ensures books.calls <= Run(cfg, books, clock, ops).calls
    decreases |ops|
  {
    hide Complete, Embed;
    if ops != [] {
      StepGrows(cfg, books, ops[0]);
      RunGrows(cfg, Step(cfg, books, ops[0]), LastReading(ops[0]), ops[1..]);
    }
  }

  lemma StepGrows(cfg: Config, books: Books, op: Op)
    requires op.CompleteOp? ==> EnoughTries(cfg, op.req, op.tries)
    ensures books.calls <= Step(cfg, books, op).calls
  {
    hide PlanFor, ExhaustedHardBudget, CallRows, CallRow, CallEvents, CallEvent;
  }

  lemma PricedPrefix(calls: seq<Call>, more: seq<Call>, most: real)
    requires calls <= more && PricedAtMost(more, most)
    ensures PricedAtMost(calls, most)
  {
    assert forall c :: c in calls ==> c in more;
  }

  lemma {:induction false} RunStaysWithin(cfg: Config, books: Books, clock: int, ops: seq<Op>, b: Budget, most: real)
    requires RegistryOk(cfg) && RunOk(cfg, clock, ops)
    requires b in cfg.budgets && b.hard
    requires most >= 0.0 && PricedAtMost(Run(cfg, books, clock, ops).calls, most)
    requires CostsOk(books.calls) && Within(cfg, books.calls, b, clock, most)
    ensures clock <= EndOf(clock, ops)
    ensures CostsOk(Run(cfg, books, clock, ops).calls)
    ensures Within(cfg, Run(cfg, books, clock, ops).calls, b, EndOf(clock, ops), most)
    decreases |ops|
  {
    hide Within, Step, RegistryOk, PricedAtMost, CostsOk;
    if ops != [] {
      var op := ops[0];
      var after := Step(cfg, books, op);
      RunGrows(cfg, after, LastReading(op), ops[1..]);
      PricedPrefix(after.calls, Run(cfg, books, clock, ops).calls, most);
      WaitingStaysWithin(cfg, books.calls, b, clock, op.now, most);
      StepStaysWithin(cfg, books, op, b, most);
      WaitingStaysWithin(cfg, after.calls, b, op.now, LastReading(op), most);
      RunStaysWithin(cfg, after, LastReading(op), ops[1..], b, most);
    }
  }

  /**
    From an empty table, whatever requests are made and whichever providers fail: when no recorded call cost more
    than `most`, at every later moment the spend in a hard budget's window is below its limit plus `most` (zero when
    the limit is not positive), and the number of calls in it is below its ceiling plus what one request can add.
   */
  lemma HardBudgetsHold(cfg: Config, clock: int, ops: seq<Op>, b: Budget, most: real, now: int)
    requires RegistryOk(cfg) && RunOk(cfg, clock, ops)
    requires most >= 0.0 && PricedAtMost(Run(cfg, Books([], []), clock, ops).calls, most)
    requires b in cfg.budgets && b.hard && EndOf(clock, ops) <= now
    ensures var calls := Run(cfg, Books([], []), clock, ops).calls;
            && (if b.limitEur > 0.0 then Spent(calls, b, now) < b.limitEur + most else Spent(calls, b, now) == 0.0)
            && (b.maxCalls.Some? ==>
                  if b.maxCalls.value > 0 then CallCount(calls, b, now) < b.maxCalls.value + Burst(cfg)
                  else CallCount(calls, b, now) == 0)
  {
    RunStaysWithin(cfg, Books([], []), clock, ops, b, most);
    var calls := Run(cfg, Books([], []), clock, ops).calls;
    WaitingStaysWithin(cfg, calls, b, EndOf(clock, ops), now, most);
    hide Run, RegistryOk, RunOk, Spent, CallCount;
    if NoneMatch(calls, b) {
      NothingMatches(calls, b, now);
    }
  }
}
