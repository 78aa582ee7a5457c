/**
  `PolicyAwareRouter`: plan the models a request may use, rank them, try them in order, and meter and record every
  attempt. What the providers answer, and when, is an input (`Try`).
 */
module Router {
  import opened Basics
  import opened Rows
  import opened ModelAccess
  import opened CostMeter

  datatype Need = Chat | Embeddings

  datatype Strategy = Quality | Cheapest | Latency | Balanced

  /** `preferred` pins one model id; empty means no pin. */
  datatype Request = Request(
    tenant: Name, workload: Name, classes: seq<DataClass>, strategy: Strategy, preferred: string)

  datatype Adapter = Adapter(chat: string -> bool, embeddings: string -> bool)

  datatype Config = Config(
    policy: AccessPolicy,
    registry: Name -> seq<ModelRecord>,
    adapters: map<string, Adapter>,
    budgets: seq<Budget>,
    maxAttempts: nat)

  /** Why a registry entry is not a candidate. */
  datatype Obstacle = AccessDenied(reasons: seq<Reason>) | NoAdapter | Incapable(need: Need) | NotPreferred

  datatype Rejection = Rejection(model: ModelRecord, why: Obstacle)

  datatype RoutePlan = RoutePlan(candidates: seq<ModelRecord>, rejected: seq<Rejection>)

  /** One call of a provider: when it started and ended, and the usage it reported; None when it threw. */
  datatype Try = Try(started: int, ended: int, usage: Option<Usage>)

  datatype Event =
    | ModelCalled(tenant: Name, workload: Name, modelId: string, policyId: string, matched: seq<string>,
                  usage: Usage, costEur: Option<real>)
    | ModelCallFailed(tenant: Name, workload: Name, modelId: string, policyId: string, matched: seq<string>,
                      usage: Usage, costEur: Option<real>)
    | CallDeniedByBudget(tenant: Name, workload: Name, limitEur: real)
    | CallDeniedByPolicy(tenant: Name, workload: Name, policyId: string, reasons: seq<Rejection>)

  datatype Books = Books(calls: seq<Call>, events: seq<Event>)

  datatype Answer =
    | Answered(model: ModelRecord, usage: Usage, attempts: nat)
    | BudgetDenied(budget: Budget)
    | NothingAllowed
    | AllFailed(attempts: nat)

  function ModelId(m: ModelRecord): string {
    m.provider + "/" + m.model
  }

  // ---------- planning ----------

  function AdapterFor(adapters: map<string, Adapter>, m: ModelRecord): Option<Adapter> {
    var shared := m.adapter == "openai-compatible" || m.adapter == "anthropic" || m.adapter == "google";
    var key := if shared then m.provider else m.adapter;
    if key in adapters then Some(adapters[key])
    else if m.provider in adapters then Some(adapters[m.provider])
    else None
  }

  predicate Capable(a: Adapter, need: Need, model: string) {
    if need.Chat? then a.chat(model) else a.embeddings(model)
  }

  function ObstacleTo(cfg: Config, req: Request, need: Need, m: ModelRecord): Option<Obstacle> {
    var d := Evaluate(cfg.policy, m, req.classes);
    var a := AdapterFor(cfg.adapters, m);
    if !d.allowed then Some(AccessDenied(d.reasons))
    else if a.None? then Some(NoAdapter)
    else if !Capable(a.value, need, m.model) then Some(Incapable(need))
    else if req.preferred != "" && ModelId(m) != req.preferred then Some(NotPreferred)
    else None
  }

  /** The policy permits the model for the request, an adapter can serve it, and no other model is pinned. */
  predicate Usable(cfg: Config, req: Request, need: Need, m: ModelRecord) {
    && Permitted(cfg.policy, m, req.classes)
    && AdapterFor(cfg.adapters, m).Some?
    && Capable(AdapterFor(cfg.adapters, m).value, need, m.model)
    && (req.preferred == "" || ModelId(m) == req.preferred)
  }

  lemma NoObstacleMeansUsable(cfg: Config, req: Request, need: Need, m: ModelRecord)
    ensures ObstacleTo(cfg, req, need, m).None? <==> Usable(cfg, req, need, m)
  {
    AccessIsExact(cfg.policy, m, req.classes);
    hide Evaluate, Permitted;
  }

  function CostScore(m: ModelRecord): real {
    if m.cost.None? then 2.5
    else
      var tenth := (m.cost.value.inputPerMillion + m.cost.value.outputPerMillion) / 10.0;
      5.0 - if tenth < 5.0 then tenth else 5.0
  }

  function RankOf(m: ModelRecord, strategy: Strategy): real {
    match strategy
    case Quality => m.qualityTier as real * 10.0 + CostScore(m)
    case Cheapest => CostScore(m) * 10.0 + m.qualityTier as real
    case Latency => (6 - m.latencyTier) as real * 10.0 + m.qualityTier as real
    case Balanced => m.qualityTier as real * 4.0 + CostScore(m) * 3.0 + (6 - m.latencyTier) as real * 2.0
  }

  lemma CostScoreRange(m: ModelRecord)
    requires PricesOk(m)
    ensures 0.0 <= CostScore(m) <= 5.0
  {}

  /**
    What the strategies promise: `quality` never prefers a lower tier, `latency` never a slower tier, `cost` never the
    dearer of two models of one tier, and every strategy prefers a model that is at least as good in all respects.
   */
  lemma StrategiesRank(a: ModelRecord, b: ModelRecord)
    requires PricesOk(a) && PricesOk(b)
    requires 1 <= a.qualityTier <= 5 && 1 <= b.qualityTier <= 5 && 1 <= a.latencyTier <= 5 && 1 <= b.latencyTier <= 5
    ensures a.qualityTier > b.qualityTier ==> RankOf(a, Quality) > RankOf(b, Quality)
    ensures a.latencyTier < b.latencyTier ==> RankOf(a, Latency) > RankOf(b, Latency)
    ensures a.qualityTier == b.qualityTier && CostScore(a) > CostScore(b) ==> RankOf(a, Cheapest) > RankOf(b, Cheapest)
    ensures a.qualityTier >= b.qualityTier && a.latencyTier <= b.latencyTier && CostScore(a) >= CostScore(b) ==>
      forall s: Strategy :: RankOf(a, s) >= RankOf(b, s)
  {
    CostScoreRange(a);
    CostScoreRange(b);
    hide CostScore;
    assert a.qualityTier > b.qualityTier ==> a.qualityTier as real >= b.qualityTier as real + 1.0;
    assert a.latencyTier < b.latencyTier ==> (6 - a.latencyTier) as real >= (6 - b.latencyTier) as real + 1.0;
  }

  /** The library's stable sort, best rank first. */
  function SortByRank(ms: seq<ModelRecord>, strategy: Strategy): seq<ModelRecord> {
    if ms == [] then [] else InsertByRank(ms[0], SortByRank(ms[1..], strategy), strategy)
  }

  function InsertByRank(m: ModelRecord, sorted: seq<ModelRecord>, strategy: Strategy): seq<ModelRecord> {
    if sorted == [] || RankOf(m, strategy) >= RankOf(sorted[0], strategy) then [m] + sorted
    else [sorted[0]] + InsertByRank(m, sorted[1..], strategy)
  }

  predicate BestFirst(ms: seq<ModelRecord>, strategy: Strategy) {
    forall i, j :: 0 <= i < j < |ms| ==> RankOf(ms[i], strategy) >= RankOf(ms[j], strategy)
  }

  function OfRank(strategy: Strategy, rank: real): ModelRecord -> bool {
    (m: ModelRecord) => RankOf(m, strategy) == rank
  }

  lemma {:induction false} InsertKeepsRows(m: ModelRecord, sorted: seq<ModelRecord>, strategy: Strategy)
    ensures multiset(InsertByRank(m, sorted, strategy)) == multiset{m} + multiset(sorted)
    ensures forall x :: x in InsertByRank(m, sorted, strategy) <==> x == m || x in sorted
  {
    hide RankOf;
    if sorted != [] {
      InsertKeepsRows(m, sorted[1..], strategy);
      assert sorted == [sorted[0]] + sorted[1..];
    }
  }

  lemma {:induction false} InsertKeepsOrder(m: ModelRecord, sorted: seq<ModelRecord>, strategy: Strategy)
    requires BestFirst(sorted, strategy)
    ensures BestFirst(InsertByRank(m, sorted, strategy), strategy)
  {
    hide RankOf;
    if sorted != [] && RankOf(m, strategy) < RankOf(sorted[0], strategy) {
      InsertKeepsOrder(m, sorted[1..], strategy);
      InsertKeepsRows(m, sorted[1..], strategy);
      var rest := InsertByRank(m, sorted[1..], strategy);
      forall j | 0 <= j < |rest| ensures RankOf(sorted[0], strategy) >= RankOf(rest[j], strategy) {
        assert rest[j] in rest;
        if rest[j] != m {
          var i :| 0 <= i < |sorted[1..]| && sorted[1..][i] == rest[j];
          assert sorted[i + 1] == rest[j];
        }
      }
    }
  }

  lemma {:induction false} InsertIsStable(m: ModelRecord, sorted: seq<ModelRecord>, strategy: Strategy, rank: real)
    ensures Keep(InsertByRank(m, sorted, strategy), OfRank(strategy, rank))
         == Keep([m] + sorted, OfRank(strategy, rank))
  {
    hide RankOf, Keep;
    var p := OfRank(strategy, rank);
    if sorted != [] && RankOf(m, strategy) < RankOf(sorted[0], strategy) {
      var head, tail := [sorted[0]], sorted[1..];
      InsertIsStable(m, tail, strategy, rank);
      KeepConcat(head, InsertByRank(m, tail, strategy), p);
      KeepConcat([m], sorted, p);
      KeepConcat([m], tail, p);
      KeepConcat(head, tail, p);
      assert sorted == head + tail;
      if p(m) {
        KeepNone(head, p);
      } else {
        KeepNone([m], p);
      }
    }
  }

  /** The candidates are the same models, best rank first, and models of equal rank keep the registry's order. */
  lemma {:induction false} SortIsStable(ms: seq<ModelRecord>, strategy: Strategy, rank: real)
    ensures BestFirst(SortByRank(ms, strategy), strategy)
    ensures multiset(SortByRank(ms, strategy)) == multiset(ms)
    ensures Keep(SortByRank(ms, strategy), OfRank(strategy, rank)) == Keep(ms, OfRank(strategy, rank))
  {
    hide RankOf;
    if ms != [] {
      SortIsStable(ms[1..], strategy, rank);
      var sorted := SortByRank(ms[1..], strategy);
      InsertKeepsRows(ms[0], sorted, strategy);
      InsertKeepsOrder(ms[0], sorted, strategy);
      InsertIsStable(ms[0], sorted, strategy, rank);
      assert ms == [ms[0]] + ms[1..];
      KeepConcat([ms[0]], sorted, OfRank(strategy, rank));
    }
  }

  function Unobstructed(cfg: Config, req: Request, need: Need): ModelRecord -> bool {
    (m: ModelRecord) => ObstacleTo(cfg, req, need, m).None?
  }

  function Rejections(cfg: Config, req: Request, need: Need, ms: seq<ModelRecord>): seq<Rejection> {
    if ms == [] then []
    else
      var o := ObstacleTo(cfg, req, need, ms[|ms| - 1]);
      Rejections(cfg, req, need, ms[..|ms| - 1]) + if o.Some? then [Rejection(ms[|ms| - 1], o.value)] else []
  }

  function PlanFor(cfg: Config, req: Request, need: Need): RoutePlan {
    var ms := cfg.registry(req.tenant);
    RoutePlan(SortByRank(Keep(ms, Unobstructed(cfg, req, need)), req.strategy), Rejections(cfg, req, need, ms))
  }

  /** The candidates are exactly the usable models of the tenant's registry, best rank first. */
  lemma PlanIsExact(cfg: Config, req: Request, need: Need)
    ensures forall m ::
      m in PlanFor(cfg, req, need).candidates <==> m in cfg.registry(req.tenant) && Usable(cfg, req, need, m)
    ensures BestFirst(PlanFor(cfg, req, need).candidates, req.strategy)
  {
    var ms := cfg.registry(req.tenant);
    var kept := Keep(ms, Unobstructed(cfg, req, need));
    var sorted := SortByRank(kept, req.strategy);
    KeepIn(ms, Unobstructed(cfg, req, need));
    SortIsStable(kept, req.strategy, 0.0);
    hide Keep, SortByRank, Usable, ObstacleTo, RankOf, BestFirst;
    forall m ensures m in sorted <==> m in ms && Usable(cfg, req, need, m) {
      NoObstacleMeansUsable(cfg, req, need, m);
      assert m in sorted <==> m in multiset(sorted);
      assert m in kept <==> m in multiset(kept);
      assert Unobstructed(cfg, req, need)(m) == ObstacleTo(cfg, req, need, m).None?;
    }
  }

  // ---------- attempts ----------

  function CallRow(cfg: Config, req: Request, m: ModelRecord, t: Try, retries: nat): Call {
    var usage := if t.usage.Some? then t.usage.value else NO_USAGE;
    Call(req.tenant, req.workload, m.provider, m.model, t.started, t.ended - t.started, usage, t.usage.Some?, retries,
         PriceCall(m, usage), cfg.policy.id)
  }

  function CallEvent(cfg: Config, req: Request, m: ModelRecord, t: Try): Event {
    var usage := if t.usage.Some? then t.usage.value else NO_USAGE;
    var matched := Evaluate(cfg.policy, m, req.classes).matched;
    if t.usage.Some?
    then ModelCalled(req.tenant, req.workload, ModelId(m), cfg.policy.id, matched, usage, PriceCall(m, usage))
    else ModelCallFailed(req.tenant, req.workload, ModelId(m), cfg.policy.id, matched, usage, PriceCall(m, usage))
  }

  /** The first attempt that succeeds ends the row of attempts; otherwise all `limit` of them are made. */
  function AttemptsMade(tries: seq<Try>, limit: nat): (n: nat)
    requires limit <= |tries|
    ensures n <= limit
    ensures forall i :: 0 <= i < n - 1 ==> tries[i].usage.None?
    ensures n < limit ==> n > 0 && tries[n - 1].usage.Some?
    ensures limit > 0 ==> n > 0
  {
    if limit == 0 then 0
    else
      var before := AttemptsMade(tries, limit - 1);
      if before == limit - 1 && (before == 0 || tries[before - 1].usage.None?) then limit else before
  }

  function CallRows(cfg: Config, req: Request, ms: seq<ModelRecord>, tries: seq<Try>, n: nat): (r: seq<Call>)
    requires n <= |ms| && n <= |tries|
    ensures |r| == n
  {
    seq(n, i requires 0 <= i < n => CallRow(cfg, req, ms[i], tries[i], i))
  }

  function CallEvents(cfg: Config, req: Request, ms: seq<ModelRecord>, tries: seq<Try>, n: nat): (r: seq<Event>)
    requires n <= |ms| && n <= |tries|
    ensures |r| == n
  {
    seq(n, i requires 0 <= i < n => CallEvent(cfg, req, ms[i], tries[i]))
  }

  function Limit(cfg: Config, ms: seq<ModelRecord>): nat {
    if cfg.maxAttempts <= |ms| then cfg.maxAttempts else |ms|
  }

  /** What stops a request before any provider is called, with the event that records it. */
  function Refused(cfg: Config, books: Books, req: Request, need: Need, now: int): Option<(Event, Answer)> {
    var exhausted := ExhaustedHardBudget(cfg.budgets, books.calls, req.tenant, req.workload, now);
    var plan := PlanFor(cfg, req, need);
    if exhausted.Some? then
      Some((CallDeniedByBudget(req.tenant, req.workload, exhausted.value.limitEur), BudgetDenied(exhausted.value)))
    else if plan.candidates == [] then
      Some((CallDeniedByPolicy(req.tenant, req.workload, cfg.policy.id, plan.rejected), NothingAllowed))
    else None
  }

  predicate EnoughTries(cfg: Config, req: Request, tries: seq<Try>) {
    Limit(cfg, PlanFor(cfg, req, Chat).candidates) <= |tries|
  }

  /** `complete`, declaratively: one row and one event per attempt, over a prefix of the ranked candidates. */
  function Complete(cfg: Config, books: Books, req: Request, now: int, tries: seq<Try>): (Books, Answer)
    requires EnoughTries(cfg, req, tries)
  {
    var refused := Refused(cfg, books, req, Chat, now);
    if refused.Some? then (books.(events := books.events + [refused.value.0]), refused.value.1)
    else
      var ms := PlanFor(cfg, req, Chat).candidates;
      var n := AttemptsMade(tries, Limit(cfg, ms));
      (Books(books.calls + CallRows(cfg, req, ms, tries, n), books.events + CallEvents(cfg, req, ms, tries, n)),
       if n > 0 && tries[n - 1].usage.Some? then Answered(ms[n - 1], tries[n - 1].usage.value, n) else AllFailed(n))
  }

  /** `embed`: the best candidate only; when the provider throws, nothing has been metered or recorded. */
  function Embed(cfg: Config, books: Books, req: Request, now: int, t: Try): (Books, Answer) {
    var refused := Refused(cfg, books, req, Embeddings, now);
    if refused.Some? then (books.(events := books.events + [refused.value.0]), refused.value.1)
    else
      var m := PlanFor(cfg, req, Embeddings).candidates[0];
      if t.usage.None? then (books, AllFailed(1))
      else (Books(books.calls + [CallRow(cfg, req, m, t, 0)], books.events + [CallEvent(cfg, req, m, t)]),
            Answered(m, t.usage.value, 1))
  }

  // ---------- what `complete` does ----------

  /** Every provider that was called is one the policy permits for this very request. */
  lemma OnlyPermittedModelsAreCalled(cfg: Config, books: Books, req: Request, now: int, tries: seq<Try>)
    requires EnoughTries(cfg, req, tries)
    ensures var (after, answer) := Complete(cfg, books, req, now, tries);
            && books.calls <= after.calls
            && (forall c :: c in after.calls[|books.calls|..] ==>
                 exists m :: m in cfg.registry(req.tenant) && Usable(cfg, req, Chat, m)
                          && c.provider == m.provider && c.model == m.model)
            && (answer.Answered? ==> Usable(cfg, req, Chat, answer.model))
  {
    PlanIsExact(cfg, req, Chat);
    hide PlanFor, Usable, ExhaustedHardBudget, Evaluate, PriceCall;
    var ms := PlanFor(cfg, req, Chat).candidates;
    var (after, answer) := Complete(cfg, books, req, now, tries);
    if Refused(cfg, books, req, Chat, now).None? {
      var n := AttemptsMade(tries, Limit(cfg, ms));
      forall c | c in after.calls[|books.calls|..]
        ensures exists m :: m in cfg.registry(req.tenant) && Usable(cfg, req, Chat, m)
                         && c.provider == m.provider && c.model == m.model
      {
        var i :| 0 <= i < n && c == CallRow(cfg, req, ms[i], tries[i], i);
        assert ms[i] in ms;
      }
      assert answer.Answered? ==> answer.model in ms;
    }
  }

  /** The first success among the `maxAttempts` best-ranked candidates is returned; a failure means they all failed. */
  lemma FirstSuccessIsReturned(cfg: Config, books: Books, req: Request, now: int, tries: seq<Try>)
    requires EnoughTries(cfg, req, tries) && Refused(cfg, books, req, Chat, now).None?
    ensures var ms := PlanFor(cfg, req, Chat).candidates;
            var most := if cfg.maxAttempts <= |ms| then cfg.maxAttempts else |ms|;
            var (after, answer) := Complete(cfg, books, req, now, tries);
            && (answer.Answered? ==>
                  && 0 < answer.attempts <= most && answer.model == ms[answer.attempts - 1]
                  && tries[answer.attempts - 1].usage == Some(answer.usage)
                  && forall i :: 0 <= i < answer.attempts - 1 ==> tries[i].usage.None?)
            && (answer.AllFailed? ==>
                  && answer.attempts == most
                  && forall i :: 0 <= i < answer.attempts ==> tries[i].usage.None?)
            && (answer.Answered? || answer.AllFailed?)
  {
    hide PlanFor, ExhaustedHardBudget, CallRows, CallEvents;
  }

  /**
    The i-th attempt's meter row and ledger event: about the request, the model and the try, with one price for both
    and the rules that let the model through.
   */
  predicate RecordsAttempt(cfg: Config, req: Request, c: Call, e: Event, m: ModelRecord, t: Try, i: nat) {
    var usage := if t.usage.Some? then t.usage.value else NO_USAGE;
    && c.tenant == req.tenant && c.workload == req.workload && c.policyId == cfg.policy.id
    && c.provider == m.provider && c.model == m.model && c.retries == i
    && c.startedAt == t.started && c.durationMs == t.ended - t.started
    && c.ok == t.usage.Some? && c.usage == usage && c.costEur == PriceCall(m, usage)
    && (if c.ok then e.ModelCalled? else e.ModelCallFailed?)
    && e.tenant == req.tenant && e.workload == req.workload && e.policyId == cfg.policy.id
    && e.matched == Evaluate(cfg.policy, m, req.classes).matched
    && e.modelId == m.provider + "/" + m.model && e.usage == usage && e.costEur == c.costEur
  }

  lemma AttemptIsRecorded(cfg: Config, req: Request, m: ModelRecord, t: Try, i: nat)
    ensures RecordsAttempt(cfg, req, CallRow(cfg, req, m, t, i), CallEvent(cfg, req, m, t), m, t, i)
  {
    hide Evaluate, PriceCall;
  }

  lemma AttemptsAreRecorded(cfg: Config, req: Request, ms: seq<ModelRecord>, tries: seq<Try>, n: nat)
    requires n <= |ms| && n <= |tries|
    ensures forall i :: 0 <= i < n ==>
      RecordsAttempt(cfg, req, CallRows(cfg, req, ms, tries, n)[i], CallEvents(cfg, req, ms, tries, n)[i], ms[i],
                     tries[i], i)
  {
    hide RecordsAttempt, CallRow, CallEvent;
    forall i | 0 <= i < n
      ensures RecordsAttempt(cfg, req, CallRow(cfg, req, ms[i], tries[i], i), CallEvent(cfg, req, ms[i], tries[i]),
                             ms[i], tries[i], i)
    {
      AttemptIsRecorded(cfg, req, ms[i], tries[i], i);
    }
  }

  /** The books have grown by `n` rows and `n` events, the i-th of each about the i-th model and try. */
  predicate AddsAttempts(cfg: Config, req: Request, before: Books, after: Books, ms: seq<ModelRecord>, tries: seq<Try>,
                         n: nat) {
    && n <= |ms| && n <= |tries|
    && before.calls <= after.calls && |after.calls| == |before.calls| + n
    && before.events <= after.events && |after.events| == |before.events| + n
    && forall i :: 0 <= i < n ==>
         RecordsAttempt(cfg, req, after.calls[|before.calls| + i], after.events[|before.events| + i], ms[i], tries[i],
                        i)
  }

  lemma RowsAddAttempts(cfg: Config, before: Books, req: Request, ms: seq<ModelRecord>, tries: seq<Try>, n: nat)
    requires n <= |ms| && n <= |tries|
    ensures var after := Books(before.calls + CallRows(cfg, req, ms, tries, n),
                               before.events + CallEvents(cfg, req, ms, tries, n));
            AddsAttempts(cfg, req, before, after, ms, tries, n)
  {
    hide RecordsAttempt, CallRows, CallEvents;
    AttemptsAreRecorded(cfg, req, ms, tries, n);
  }

  /** The two ways a completion ends: refused with one event, or after a number of attempts. */
  lemma CompleteCases(cfg: Config, books: Books, req: Request, now: int, tries: seq<Try>)
    requires EnoughTries(cfg, req, tries)
    ensures var ms := PlanFor(cfg, req, Chat).candidates;
            var n := AttemptsMade(tries, Limit(cfg, ms));
            var (after, answer) := Complete(cfg, books, req, now, tries);
            if answer.Answered? || answer.AllFailed?
            then
              && after == Books(books.calls + CallRows(cfg, req, ms, tries, n),
                                books.events + CallEvents(cfg, req, ms, tries, n))
              && answer.attempts == n
              && (answer.Answered? <==> n > 0 && tries[n - 1].usage.Some?)
            else exists e :: after == books.(events := books.events + [e])
  {
    hide PlanFor, ExhaustedHardBudget, CallRows, CallEvents, AttemptsMade;
  }

  lemma OnlyLastSucceeds(tries: seq<Try>, limit: nat)
    requires limit <= |tries|
    ensures var n := AttemptsMade(tries, limit);
            forall i :: 0 <= i < n ==> (tries[i].usage.Some? <==> i == n - 1 && tries[n - 1].usage.Some?)
  {
    hide AttemptsMade;
  }

  /**
    One meter row and one ledger event per attempt, the i-th about the i-th best candidate, all but the last about a
    failure; a refusal leaves one event and no row.
   */
  lemma EveryAttemptIsRecorded(cfg: Config, books: Books, req: Request, now: int, tries: seq<Try>)
    requires EnoughTries(cfg, req, tries)
    ensures var ms := PlanFor(cfg, req, Chat).candidates;
            var (after, answer) := Complete(cfg, books, req, now, tries);
            if answer.Answered? || answer.AllFailed?
            then
              && AddsAttempts(cfg, req, books, after, ms, tries, answer.attempts)
              && forall i :: 0 <= i < answer.attempts ==>
                   (tries[i].usage.Some? <==> i == answer.attempts - 1 && answer.Answered?)
            else exists e :: after == books.(events := books.events + [e])
  {
    hide PlanFor, CallRows, CallEvents, Complete, AttemptsMade, AddsAttempts;
    var ms := PlanFor(cfg, req, Chat).candidates;
    CompleteCases(cfg, books, req, now, tries);
    RowsAddAttempts(cfg, books, req, ms, tries, AttemptsMade(tries, Limit(cfg, ms)));
    OnlyLastSucceeds(tries, Limit(cfg, ms));
  }

  /**
    Unlike a completion, an embedding call asks one model, a usable one no other outranks, and is metered and
    recorded exactly when that model answers: a failed call leaves no row and no event.
   */
  lemma FailedEmbeddingLeavesNoTrace(cfg: Config, books: Books, req: Request, now: int, t: Try)
    requires Refused(cfg, books, req, Embeddings, now).None?
    ensures var asked := PlanFor(cfg, req, Embeddings).candidates[0];
            var (after, answer) := Embed(cfg, books, req, now, t);
            && asked in cfg.registry(req.tenant) && Usable(cfg, req, Embeddings, asked)
            && (forall m :: m in cfg.registry(req.tenant) && Usable(cfg, req, Embeddings, m) ==>
                  RankOf(asked, req.strategy) >= RankOf(m, req.strategy))
            && (t.usage.None? ==> after == books && answer == AllFailed(1))
            && (t.usage.Some? ==>
                  && answer == Answered(asked, t.usage.value, 1)
                  && books.calls <= after.calls && |after.calls| == |books.calls| + 1
                  && books.events <= after.events && |after.events| == |books.events| + 1
                  && RecordsAttempt(cfg, req, after.calls[|books.calls|], after.events[|books.events|], asked, t,
                                    0))
  {
    PlanIsExact(cfg, req, Embeddings);
    hide PlanFor, ExhaustedHardBudget, RecordsAttempt, CallRow, CallEvent, Usable, RankOf;
    var ms := PlanFor(cfg, req, Embeddings).candidates;
    AttemptIsRecorded(cfg, req, ms[0], t, 0);
    assert ms[0] in ms;
    forall m | m in cfg.registry(req.tenant) && Usable(cfg, req, Embeddings, m)
      ensures RankOf(ms[0], req.strategy) >= RankOf(m, req.strategy)
    {
      var j :| 0 <= j < |ms| && ms[j] == m;
    }
  }

  // ---------- what stops a request ----------

  /** The rejected models are the ones that are not usable, in the registry's order. */
  lemma {:induction false} RejectedInOrder(cfg: Config, req: Request, need: Need, ms: seq<ModelRecord>)
    ensures Each(Rejections(cfg, req, need, ms), (r: Rejection) => r.model)
         == Keep(ms, (m: ModelRecord) => !Usable(cfg, req, need, m))
  {
    hide Usable, ObstacleTo, Keep, Each;
    var model, unusable := (r: Rejection) => r.model, (m: ModelRecord) => !Usable(cfg, req, need, m);
    if ms == [] {
      KeepAll(ms, unusable);
    } else {
      var n := |ms| - 1;
      var o := ObstacleTo(cfg, req, need, ms[n]);
      RejectedInOrder(cfg, req, need, ms[..n]);
      NoObstacleMeansUsable(cfg, req, need, ms[n]);
      assert ms == ms[..n] + [ms[n]];
      KeepConcat(ms[..n], [ms[n]], unusable);
      if o.Some? {
        KeepAll([ms[n]], unusable);
        EachConcat(Rejections(cfg, req, need, ms[..n]), [Rejection(ms[n], o.value)], model);
      } else {
        KeepNone([ms[n]], unusable);
      }
    }
  }

  /** Each rejected model is rejected for the first thing that stands in its way. */
  lemma {:induction false} RejectionsAreExact(cfg: Config, req: Request, need: Need, ms: seq<ModelRecord>, r: Rejection)
    requires r in Rejections(cfg, req, need, ms)
    ensures var adapter := AdapterFor(cfg.adapters, r.model);
            r.model in ms &&
            match r.why
            case AccessDenied(reasons) =>
              !Permitted(cfg.policy, r.model, req.classes)
              && reasons == Evaluate(cfg.policy, r.model, req.classes).reasons
            case NoAdapter => Permitted(cfg.policy, r.model, req.classes) && adapter.None?
            case Incapable(n) =>
              n == need && Permitted(cfg.policy, r.model, req.classes)
              && adapter.Some? && !Capable(adapter.value, need, r.model.model)
            case NotPreferred =>
              && Permitted(cfg.policy, r.model, req.classes)
              && adapter.Some? && Capable(adapter.value, need, r.model.model)
              && req.preferred != "" && r.model.provider + "/" + r.model.model != req.preferred
  {
    hide Evaluate, Permitted, AdapterFor, Capable;
    var n := |ms| - 1;
    if r in Rejections(cfg, req, need, ms[..n]) {
      RejectionsAreExact(cfg, req, need, ms[..n], r);
    } else {
      AccessIsExact(cfg.policy, ms[n], req.classes);
    }
  }

  /**
    A request is let through exactly when no hard budget blocks it and some model can serve it. A refusal leaves one
    event, the blocking budget's or, failing that, the one that lists what stood in the way of every model.
   */
  lemma RefusalIsExact(cfg: Config, books: Books, req: Request, need: Need, now: int)
    ensures var refused := Refused(cfg, books, req, need, now);
            var blocked := exists b :: b in cfg.budgets && Blocks(b, books.calls, req.tenant, req.workload, now);
            && (refused.None? <==>
                  !blocked && exists m :: m in cfg.registry(req.tenant) && Usable(cfg, req, need, m))
            && (refused.Some? && blocked ==>
                  exists b :: b in cfg.budgets && Blocks(b, books.calls, req.tenant, req.workload, now)
                    && refused.value == (CallDeniedByBudget(req.tenant, req.workload, b.limitEur), BudgetDenied(b)))
            && (refused.Some? && !blocked ==>
                  && refused.value.1 == NothingAllowed && refused.value.0.CallDeniedByPolicy?
                  && refused.value.0.tenant == req.tenant && refused.value.0.workload == req.workload
                  && refused.value.0.policyId == cfg.policy.id
                  && refused.value.0.reasons == Rejections(cfg, req, need, cfg.registry(req.tenant)))
  {
    PlanIsExact(cfg, req, need);
    var candidates := PlanFor(cfg, req, need).candidates;
    assert PlanFor(cfg, req, need).rejected == Rejections(cfg, req, need, cfg.registry(req.tenant));
    hide PlanFor, Usable, Spent, CallCount, ExhaustedHardBudget;
    assert candidates != [] ==> candidates[0] in candidates;
    var exhausted := ExhaustedHardBudget(cfg.budgets, books.calls, req.tenant, req.workload, now);
    if exhausted.Some? {
      FirstBudgetBlocks(cfg.budgets, books.calls, req.tenant, req.workload, now);
      assert Blocks(exhausted.value, books.calls, req.tenant, req.workload, now);
    }
  }

  /**
    A model of a shared kind is served by the adapter registered under its provider; any other by the one registered
    under its own adapter name, or else under its provider.
   */
  lemma AdapterIsFound(adapters: map<string, Adapter>, m: ModelRecord, a: Adapter)
    ensures var shared := m.adapter in {"openai-compatible", "anthropic", "google"};
            AdapterFor(adapters, m) == Some(a) <==>
              if !shared && m.adapter in adapters then adapters[m.adapter] == a
              else m.provider in adapters && adapters[m.provider] == a
  {}

  // ---------- what the strategies trade ----------

  /**
    When one model is ranked at least as high as another: `quality` gives a tier the worth of ten cost points,
    `cost` a cost point that of ten quality tiers, `latency` a latency tier that of ten quality tiers, and
    `balanced` weighs a quality tier, a cost point and a latency tier as 4, 3 and 2.
   */
  lemma StrategiesTrade(a: ModelRecord, b: ModelRecord)
    ensures var better := (a.qualityTier - b.qualityTier) as real;
            var faster := (b.latencyTier - a.latencyTier) as real;
            var cheaper := CostScore(a) - CostScore(b);
            && (RankOf(a, Quality) >= RankOf(b, Quality) <==> 10.0 * better + cheaper >= 0.0)
            && (RankOf(a, Cheapest) >= RankOf(b, Cheapest) <==> better + 10.0 * cheaper >= 0.0)
            && (RankOf(a, Latency) >= RankOf(b, Latency) <==> better + 10.0 * faster >= 0.0)
            && (RankOf(a, Balanced) >= RankOf(b, Balanced) <==> 4.0 * better + 3.0 * cheaper + 2.0 * faster >= 0.0)
  {
    hide CostScore;
    assert (6 - a.latencyTier) as real - (6 - b.latencyTier) as real == (b.latencyTier - a.latencyTier) as real;
    assert (a.qualityTier - b.qualityTier) as real == a.qualityTier as real - b.qualityTier as real;
  }

  /** Cost points: five for a free model, one less for every ten EUR per million tokens in and out, never below zero. */
  lemma CostPoints(m: ModelRecord)
    ensures m.cost.None? ==> CostScore(m) == 2.5
    ensures m.cost.Some? ==>
      var perMillion := m.cost.value.inputPerMillion + m.cost.value.outputPerMillion;
      && (perMillion <= 50.0 ==> 10.0 * (5.0 - CostScore(m)) == perMillion)
      && (perMillion >= 50.0 ==> CostScore(m) == 0.0)
  {}

  // ---------- a failed embedding call ----------

  const ANYTHING := Requirement(None, None, None, None, None, None, None, None)

  const EMBEDDER := ModelRecord("local", "embedder", "local", "on-premises", Approved, 0, false, true, true,
                                [Public], None, 3, 3)

  const ONE_MODEL := Config(AccessPolicy("policy", 1, [Rule("public", [Public], false, ANYTHING)]),
                            (tenant: Name) => [EMBEDDER],
                            map["local" := Adapter((model: string) => false, (model: string) => true)], [], 3)

  const SEARCH := Request("acme", "search", [], Balanced, "")

  lemma EmbedderIsUsable()
    ensures Usable(ONE_MODEL, SEARCH, Embeddings, EMBEDDER)
  {
    var rules := ONE_MODEL.policy.rules;
    assert rules[0] in rules && Satisfied(ANYTHING, EMBEDDER);
    assert forall r :: r in rules ==> r == rules[0];
    assert ClassPermitted(ONE_MODEL.policy, EMBEDDER, Public);
  }

  /** The call is allowed and made, the provider fails, and the books are as empty as before. */
  lemma FailedCallIsNotRecorded()
    ensures Embed(ONE_MODEL, Books([], []), SEARCH, 0, Try(0, 5, None)) == (Books([], []), AllFailed(1))
  {
    EmbedderIsUsable();
    PlanIsExact(ONE_MODEL, SEARCH, Embeddings);
    hide PlanFor, Usable;
    assert EMBEDDER in ONE_MODEL.registry("acme");
    assert EMBEDDER in PlanFor(ONE_MODEL, SEARCH, Embeddings).candidates;
  }
}
