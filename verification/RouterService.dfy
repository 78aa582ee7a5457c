/** The router as it is written: planning and trying in loops, metering and recording as it goes. */
module RouterService {
  import opened Basics
  import opened Rows
  import opened ModelAccess
  import opened CostMeter
  import opened Router

  class PolicyAwareRouter {
    const policy: AccessPolicy
    const registry: Name -> seq<ModelRecord>
    const adapters: map<string, Adapter>
    const maxAttempts: nat
    const meter: Meter
    var events: seq<Event>

    function Settings(): Config
      reads meter
    {
      Config(policy, registry, adapters, meter.budgets, maxAttempts)
    }

    function View(): Books
      reads this, meter
    {
      Books(meter.calls, events)
    }

    constructor (policy: AccessPolicy, registry: Name -> seq<ModelRecord>, adapters: map<string, Adapter>,
                 meter: Meter, maxAttempts: nat)
      ensures Settings() == Config(policy, registry, adapters, meter.budgets, maxAttempts)
      ensures View() == Books(meter.calls, []) && this.meter == meter
    {
      this.policy, this.registry, this.adapters, this.meter, this.maxAttempts := policy, registry, adapters, meter,
        maxAttempts;
      events := [];
    }

    method Plan(req: Request, need: Need) returns (plan: RoutePlan)
      ensures plan == PlanFor(Settings(), req, need)
    {
      hide Evaluate, SortByRank;
      ghost var cfg := Settings();
      var ms := registry(req.tenant);
      var candidates, rejected := [], [];
      for i := 0 to |ms|
        invariant candidates == Keep(ms[..i], Unobstructed(cfg, req, need))
        invariant rejected == Rejections(cfg, req, need, ms[..i])
      {
        var m := ms[i];
        assert ms[..i + 1] == ms[..i] + [m];
        KeepConcat(ms[..i], [m], Unobstructed(cfg, req, need));
        var adapter := AdapterFor(adapters, m);
        var decision := EvaluateModelAccess(policy, m, req.classes);
        if !decision.allowed {
          rejected := rejected + [Rejection(m, AccessDenied(decision.reasons))];
        } else if adapter.None? || !Capable(adapter.value, need, m.model) {
          rejected := rejected + [Rejection(m, if adapter.Some? then Incapable(need) else NoAdapter)];
        } else if req.preferred != "" && ModelId(m) != req.preferred {
          rejected := rejected + [Rejection(m, NotPreferred)];
        } else {
          candidates := candidates + [m];
        }
      }
      assert ms[..|ms|] == ms;
      return RoutePlan(SortByRank(candidates, req.strategy), rejected);
    }

    /** `#assertRoutable`; None when the request may go ahead. */
    method CheckRoutable(req: Request, need: Need, plan: RoutePlan, now: int) returns (stop: Option<Answer>)
      requires plan == PlanFor(Settings(), req, need)
      modifies this`events
      ensures var refused := Refused(Settings(), old(View()), req, need, now);
              && stop == (if refused.Some? then Some(refused.value.1) else None)
              && events == if refused.Some? then old(events) + [refused.value.0] else old(events)
    {
      hide PlanFor;
      var exhausted := meter.FindExhausted(req.tenant, req.workload, now);
      if exhausted.Some? {
        events := events + [CallDeniedByBudget(req.tenant, req.workload, exhausted.value.limitEur)];
        return Some(BudgetDenied(exhausted.value));
      }
      if plan.candidates == [] {
        events := events + [CallDeniedByPolicy(req.tenant, req.workload, policy.id, plan.rejected)];
        return Some(NothingAllowed);
      }
      return None;
    }

    /** `#record`: one meter row and one event. */
    method RecordCall(req: Request, m: ModelRecord, t: Try, retries: nat)
      modifies this`events, meter`calls, meter`alerts
      ensures meter.calls == old(meter.calls) + [CallRow(Settings(), req, m, t, retries)]
      ensures events == old(events) + [CallEvent(Settings(), req, m, t)]
    {
      hide Evaluate, PriceCall;
      var usage := if t.usage.Some? then t.usage.value else NO_USAGE;
      var cost := PriceCall(m, usage);
      meter.Record(Call(req.tenant, req.workload, m.provider, m.model, t.started, t.ended - t.started, usage,
                        t.usage.Some?, retries, cost, policy.id), t.ended);
      var decision := EvaluateModelAccess(policy, m, req.classes);
      events := events + [
        if t.usage.Some?
        then ModelCalled(req.tenant, req.workload, ModelId(m), policy.id, decision.matched, usage, cost)
        else ModelCallFailed(req.tenant, req.workload, ModelId(m), policy.id, decision.matched, usage, cost)];
    }

    method CompleteRequest(req: Request, now: int, tries: seq<Try>) returns (answer: Answer)
      requires EnoughTries(Settings(), req, tries)
      modifies this`events, meter`calls, meter`alerts
      ensures (View(), answer) == Complete(Settings(), old(View()), req, now, tries)
    {
      hide PlanFor, Evaluate, PriceCall, ExhaustedHardBudget, CallRow, CallEvent, CallRows, CallEvents, AttemptsMade,
        Refused;
      ghost var cfg, before := Settings(), View();
      var plan := Plan(req, Chat);
      var stop := CheckRoutable(req, Chat, plan, now);
      if stop.Some? {
        return stop.value;
      }
      var ms := plan.candidates;
      var attempts := 0;
      var limit := if maxAttempts <= |ms| then maxAttempts else |ms|;
      NoAttemptYet(cfg, req, ms, tries);
      while attempts < limit
        invariant attempts <= limit && Settings() == cfg
        invariant attempts == AttemptsMade(tries, attempts)
        invariant forall i :: 0 <= i < attempts ==> tries[i].usage.None?
        invariant meter.calls == before.calls + CallRows(cfg, req, ms, tries, attempts)
        invariant events == before.events + CallEvents(cfg, req, ms, tries, attempts)
      {
        attempts := attempts + 1;
        RecordCall(req, ms[attempts - 1], tries[attempts - 1], attempts - 1);
        RowsOneMore(cfg, req, ms, tries, attempts - 1);
        Regroup(before.calls, CallRows(cfg, req, ms, tries, attempts - 1),
                CallRow(cfg, req, ms[attempts - 1], tries[attempts - 1], attempts - 1));
        Regroup(before.events, CallEvents(cfg, req, ms, tries, attempts - 1),
                CallEvent(cfg, req, ms[attempts - 1], tries[attempts - 1]));
        OneMoreAttempt(tries, attempts - 1);
        if tries[attempts - 1].usage.Some? {
          StopsAtSuccess(tries, attempts, limit);
          return Answered(ms[attempts - 1], tries[attempts - 1].usage.value, attempts);
        }
      }
      return AllFailed(attempts);
    }

    static lemma Regroup<T>(a: seq<T>, b: seq<T>, x: T)
      ensures (a + b) + [x] == a + (b + [x])
    {}

    static lemma NoAttemptYet(cfg: Config, req: Request, ms: seq<ModelRecord>, tries: seq<Try>)
      ensures AttemptsMade(tries, 0) == 0
      ensures CallRows(cfg, req, ms, tries, 0) == [] && CallEvents(cfg, req, ms, tries, 0) == []
    {}

    static lemma OneMoreAttempt(tries: seq<Try>, n: nat)
      requires n < |tries| && AttemptsMade(tries, n) == n && (n == 0 || tries[n - 1].usage.None?)
      ensures AttemptsMade(tries, n + 1) == n + 1
    {}

    static lemma RowsOneMore(cfg: Config, req: Request, ms: seq<ModelRecord>, tries: seq<Try>, n: nat)
      requires n < |ms| && n < |tries|
      ensures CallRows(cfg, req, ms, tries, n + 1)
           == CallRows(cfg, req, ms, tries, n) + [CallRow(cfg, req, ms[n], tries[n], n)]
      ensures CallEvents(cfg, req, ms, tries, n + 1)
           == CallEvents(cfg, req, ms, tries, n) + [CallEvent(cfg, req, ms[n], tries[n])]
    {
      hide CallRow, CallEvent;
    }

    /** After a success no further attempt is made. */
    static lemma {:induction false} StopsAtSuccess(tries: seq<Try>, n: nat, limit: nat)
      requires 0 < n <= limit <= |tries| && AttemptsMade(tries, n) == n && tries[n - 1].usage.Some?
      ensures AttemptsMade(tries, limit) == n
    {
      if n < limit {
        StopsAtSuccess(tries, n, limit - 1);
      }
    }

    method EmbedTexts(req: Request, now: int, t: Try) returns (answer: Answer)
      modifies this`events, meter`calls, meter`alerts
      ensures (View(), answer) == Embed(Settings(), old(View()), req, now, t)
    {
      hide PlanFor, Evaluate, PriceCall, ExhaustedHardBudget, CallRow, CallEvent;
      var plan := Plan(req, Embeddings);
      var stop := CheckRoutable(req, Embeddings, plan, now);
      if stop.Some? {
        return stop.value;
      }
      var best := plan.candidates[0];
      if t.usage.None? {
        return AllFailed(1);
      }
      RecordCall(req, best, t, 0);
      return Answered(best, t.usage.value, 1);
    }
  }
}
