/** Cost governance: the metered calls, what a budget's rolling window holds, and which hard budget is exhausted. */
module CostMeter {
  import opened Basics
  import opened ModelAccess

  const DAY := 86_400_000

  datatype Usage = Usage(inputTokens: nat, outputTokens: nat, cachedInputTokens: nat)

  const NO_USAGE := Usage(0, 0, 0)

  /** A row of model_calls. */
  datatype Call = Call(
    tenant: Name, workload: Name, provider: string, model: string, startedAt: int, durationMs: int,
    usage: Usage, ok: bool, retries: nat, costEur: Option<real>, policyId: string)

  /** An empty `workload` covers all of the tenant's workloads. */
  datatype Budget = Budget(
    tenant: Name, workload: string, windowDays: nat, limitEur: real, hard: bool, maxCalls: Option<int>)

  // ---------- prices ----------

  /** The registry schema refuses negative prices. */
  predicate PricesOk(m: ModelRecord) {
    m.cost.Some? ==>
      && m.cost.value.inputPerMillion >= 0.0
      && m.cost.value.outputPerMillion >= 0.0
      && (m.cost.value.cachedInputPerMillion.Some? ==> m.cost.value.cachedInputPerMillion.value >= 0.0)
  }

  function PriceCall(m: ModelRecord, u: Usage): Option<real> {
    if m.cost.None? then None
    else
      var c := m.cost.value;
      var cachedRate := if c.cachedInputPerMillion.Some? then c.cachedInputPerMillion.value else c.inputPerMillion;
      var uncached: nat := if u.inputTokens >= u.cachedInputTokens then u.inputTokens - u.cachedInputTokens else 0;
      Some((uncached as real * c.inputPerMillion
            + u.cachedInputTokens as real * cachedRate
            + u.outputTokens as real * c.outputPerMillion) / 1000000.0)
  }

  lemma ProductNotNegative(n: nat, x: real)
    requires x >= 0.0
    ensures n as real * x >= 0.0
  {
    RealProductNotNegative(n as real, x);
  }

  lemma RealProductNotNegative(x: real, y: real)
    requires x >= 0.0 && y >= 0.0
    ensures x * y >= 0.0
  {}

  /** No call has a negative price, a failed one (no usage) costs nothing, and only an unpriced model has no price. */
  lemma PriceIsNotNegative(m: ModelRecord, u: Usage)
    requires PricesOk(m)
    ensures PriceCall(m, u).None? <==> m.cost.None?
    ensures PriceCall(m, u).Some? ==> PriceCall(m, u).value >= 0.0
    ensures m.cost.Some? ==> PriceCall(m, NO_USAGE) == Some(0.0)
  {
    if m.cost.Some? {
      var c := m.cost.value;
      var cachedRate := if c.cachedInputPerMillion.Some? then c.cachedInputPerMillion.value else c.inputPerMillion;
      var uncached: nat := if u.inputTokens >= u.cachedInputTokens then u.inputTokens - u.cachedInputTokens else 0;
      ProductNotNegative(uncached, c.inputPerMillion);
      ProductNotNegative(u.cachedInputTokens, cachedRate);
      ProductNotNegative(u.outputTokens, c.outputPerMillion);
    }
  }

  /** Reading input from the cache saves exactly the difference of the two rates; without a cached rate, nothing. */
  lemma CachingSavesTheDifference(m: ModelRecord, u: Usage)
    requires m.cost.Some? && u.cachedInputTokens <= u.inputTokens
    ensures var c := m.cost.value;
            var cachedRate := c.cachedInputPerMillion;
            var saved := if cachedRate.Some? then c.inputPerMillion - cachedRate.value else 0.0;
            PriceCall(m, u).value
              == PriceCall(m, u.(cachedInputTokens := 0)).value - u.cachedInputTokens as real * saved / 1000000.0
  {
    var c := m.cost.value;
    var cachedRate := if c.cachedInputPerMillion.Some? then c.cachedInputPerMillion.value else c.inputPerMillion;
    var all, cached := u.inputTokens as real, u.cachedInputTokens as real;
    assert (u.inputTokens - u.cachedInputTokens) as real == all - cached;
    SplitRate(all, cached, c.inputPerMillion, cachedRate);
    SplitRate(all, 0.0, c.inputPerMillion, cachedRate);
  }

  lemma SplitRate(all: real, cached: real, full: real, reduced: real)
    ensures (all - cached) * full + cached * reduced == all * full - cached * (full - reduced)
    ensures 0.0 * reduced == 0.0
  {
    assert (all - cached) * full == all * full - cached * full;
    assert cached * (full - reduced) == cached * full - cached * reduced;
  }

  lemma AddTokens(x: real, n: real, rate: real)
    ensures (x + n) * rate == x * rate + n * rate
  {}

  /** Output tokens cost exactly the output rate, whatever else the call used. */
  lemma OutputTokensCost(m: ModelRecord, u: Usage, n: nat)
    requires m.cost.Some?
    ensures PriceCall(m, u.(outputTokens := u.outputTokens + n)).value
         == PriceCall(m, u).value + n as real * m.cost.value.outputPerMillion / 1000000.0
  {
    var rate := m.cost.value.outputPerMillion;
    assert (u.outputTokens + n) as real == u.outputTokens as real + n as real;
    AddTokens(u.outputTokens as real, n as real, rate);
  }

  /** Input tokens that were not cached cost exactly the input rate. */
  lemma InputTokensCost(m: ModelRecord, u: Usage, n: nat)
    requires m.cost.Some? && u.cachedInputTokens <= u.inputTokens
    ensures PriceCall(m, u.(inputTokens := u.inputTokens + n)).value
         == PriceCall(m, u).value + n as real * m.cost.value.inputPerMillion / 1000000.0
  {
    var uncached := u.inputTokens - u.cachedInputTokens;
    assert (uncached + n) as real == uncached as real + n as real;
    AddTokens(uncached as real, n as real, m.cost.value.inputPerMillion);
  }

  /**
    Input tokens that were cached cost exactly the cached rate, or the input rate where there is none; so do those a
    provider reports as cached beyond the input.
   */
  lemma CachedTokensCost(m: ModelRecord, u: Usage, n: nat)
    requires m.cost.Some?
    ensures var c := m.cost.value;
            var more := n as real * (match c.cachedInputPerMillion
                                     case Some(rate) => rate
                                     case None => c.inputPerMillion) / 1000000.0;
            var cached := u.cachedInputTokens + n;
            && PriceCall(m, u.(inputTokens := u.inputTokens + n, cachedInputTokens := cached)).value
                 == PriceCall(m, u).value + more
            && (u.inputTokens <= u.cachedInputTokens ==>
                  PriceCall(m, u.(cachedInputTokens := cached)).value == PriceCall(m, u).value + more)
  {
    var c := m.cost.value;
    var rate := if c.cachedInputPerMillion.Some? then c.cachedInputPerMillion.value else c.inputPerMillion;
    assert (u.cachedInputTokens + n) as real == u.cachedInputTokens as real + n as real;
    AddTokens(u.cachedInputTokens as real, n as real, rate);
  }

  // ---------- windows ----------

  function Since(b: Budget, now: int): int {
    now - b.windowDays * DAY
  }

  /** The budget is about this call, whenever it was made. */
  predicate Matches(b: Budget, c: Call) {
    c.tenant == b.tenant && (b.workload == "" || c.workload == b.workload)
  }

  /** The call's share of a window that starts at `since`; a call without a price adds nothing. */
  function Share(b: Budget, since: int, c: Call): real {
    if Matches(b, c) && c.startedAt >= since && c.costEur.Some? then c.costEur.value else 0.0
  }

  /** `SUM(cost_eur)` over the window ending now. */
  function Spent(calls: seq<Call>, b: Budget, now: int): real {
    if calls == [] then 0.0
    else Spent(calls[..|calls| - 1], b, now) + Share(b, Since(b, now), calls[|calls| - 1])
  }

  /** `COUNT(*)` over the window ending now. */
  function CallCount(calls: seq<Call>, b: Budget, now: int): nat {
    if calls == [] then 0
    else
      var c := calls[|calls| - 1];
      CallCount(calls[..|calls| - 1], b, now) + if Matches(b, c) && c.startedAt >= Since(b, now) then 1 else 0
  }

  predicate CostsOk(calls: seq<Call>) {
    forall c :: c in calls && c.costEur.Some? ==> c.costEur.value >= 0.0
  }

  lemma {:induction false} SpentConcat(a: seq<Call>, z: seq<Call>, b: Budget, now: int)
    ensures Spent(a + z, b, now) == Spent(a, b, now) + Spent(z, b, now)
    ensures CallCount(a + z, b, now) == CallCount(a, b, now) + CallCount(z, b, now)
  {
    if z == [] {
      assert a + z == a;
    } else {
      assert (a + z)[..|a + z| - 1] == a + z[..|z| - 1];
      SpentConcat(a, z[..|z| - 1], b, now);
    }
  }

  /** A budget's window holds the priced calls of its tenant and workload of the last so many times 24 hours. */
  lemma WindowIsExact(calls: seq<Call>, c: Call, b: Budget, now: int)
    ensures var counts := c.tenant == b.tenant && (b.workload == "" || c.workload == b.workload)
                          && now - c.startedAt <= b.windowDays * 24 * 60 * 60 * 1000;
            && Spent([], b, now) == 0.0 && CallCount([], b, now) == 0
            && Spent(calls + [c], b, now)
                 == Spent(calls, b, now) + (if counts && c.costEur.Some? then c.costEur.value else 0.0)
            && CallCount(calls + [c], b, now) == CallCount(calls, b, now) + (if counts then 1 else 0)
  {
    assert (calls + [c])[..|calls|] == calls;
  }

  /** As the window slides, spend and count of the calls already made can only fall. */
  lemma {:induction false} WindowSlides(calls: seq<Call>, b: Budget, earlier: int, later: int)
    requires CostsOk(calls) && earlier <= later
    ensures 0.0 <= Spent(calls, b, later) <= Spent(calls, b, earlier)
    ensures CallCount(calls, b, later) <= CallCount(calls, b, earlier)
  {
    if calls != [] {
      assert calls[|calls| - 1] in calls;
      assert forall c :: c in calls[..|calls| - 1] ==> c in calls;
      WindowSlides(calls[..|calls| - 1], b, earlier, later);
    }
  }

  /** A budget no call matches has nothing in its window. */
  lemma {:induction false} NothingMatches(calls: seq<Call>, b: Budget, now: int)
    requires forall c :: c in calls ==> !Matches(b, c)
    ensures Spent(calls, b, now) == 0.0 && CallCount(calls, b, now) == 0
  {
    if calls != [] {
      assert calls[|calls| - 1] in calls;
      assert forall c :: c in calls[..|calls| - 1] ==> c in calls;
      NothingMatches(calls[..|calls| - 1], b, now);
    }
  }

  // ---------- exhaustion ----------

  predicate Covers(b: Budget, tenant: Name, workload: Name) {
    b.tenant == tenant && (b.workload == "" || b.workload == workload)
  }

  predicate Exhausted(b: Budget, calls: seq<Call>, now: int) {
    Spent(calls, b, now) >= b.limitEur || (b.maxCalls.Some? && CallCount(calls, b, now) >= b.maxCalls.value)
  }

  /** The first hard budget over this workload that is exhausted. */
  function ExhaustedHardBudget(budgets: seq<Budget>, calls: seq<Call>, tenant: Name, workload: Name,
                               now: int): (r: Option<Budget>)
    ensures r.None? <==> forall b :: b in budgets && b.hard && Covers(b, tenant, workload) ==> !Exhausted(b, calls, now)
    ensures r.Some? ==>
      r.value in budgets && r.value.hard && Covers(r.value, tenant, workload) && Exhausted(r.value, calls, now)
  {
    if budgets == [] then None
    else if budgets[0].hard && Covers(budgets[0], tenant, workload) && Exhausted(budgets[0], calls, now)
    then Some(budgets[0])
    else ExhaustedHardBudget(budgets[1..], calls, tenant, workload, now)
  }

  /** The alerts that recording a call raises: over the limit, or an unpriced call over the count. */
  function Alerts(budgets: seq<Budget>, calls: seq<Call>, call: Call, now: int): seq<(Budget, real)> {
    if budgets == [] then []
    else
      var b := budgets[0];
      (if Matches(b, call) && AlertsOn(b, calls, call, now) then [(b, Spent(calls, b, now))] else [])
      + Alerts(budgets[1..], calls, call, now)
  }

  predicate AlertsOn(b: Budget, calls: seq<Call>, call: Call, now: int) {
    || Spent(calls, b, now) > b.limitEur
    || (call.costEur.None? && b.maxCalls.Some? && CallCount(calls, b, now) > b.maxCalls.value)
  }

  /** The budget that blocks a call comes before every other that would. */
  lemma {:induction false} FirstBudgetBlocks(budgets: seq<Budget>, calls: seq<Call>, tenant: Name, workload: Name,
                                             now: int)
    requires ExhaustedHardBudget(budgets, calls, tenant, workload, now).Some?
    ensures exists i :: 0 <= i < |budgets|
              && ExhaustedHardBudget(budgets, calls, tenant, workload, now) == Some(budgets[i])
              && Blocks(budgets[i], calls, tenant, workload, now)
              && forall j :: 0 <= j < i ==> !Blocks(budgets[j], calls, tenant, workload, now)
  {
    if Blocks(budgets[0], calls, tenant, workload, now) {
      assert ExhaustedHardBudget(budgets, calls, tenant, workload, now) == Some(budgets[0]);
    } else {
      FirstBudgetBlocks(budgets[1..], calls, tenant, workload, now);
      var i :| 0 <= i < |budgets[1..]|
        && ExhaustedHardBudget(budgets[1..], calls, tenant, workload, now) == Some(budgets[1..][i])
        && Blocks(budgets[1..][i], calls, tenant, workload, now)
        && forall j :: 0 <= j < i ==> !Blocks(budgets[1..][j], calls, tenant, workload, now);
      forall j | 0 <= j < i + 1 ensures !Blocks(budgets[j], calls, tenant, workload, now) {
        assert j > 0 ==> budgets[j] == budgets[1..][j - 1];
      }
      assert budgets[i + 1] == budgets[1..][i];
    }
  }

  /** A hard budget of this tenant, for this workload or for all, with its spend or its count used up. */
  predicate Blocks(b: Budget, calls: seq<Call>, tenant: Name, workload: Name, now: int) {
    && b.hard && b.tenant == tenant && (b.workload == "" || b.workload == workload)
    && (Spent(calls, b, now) >= b.limitEur
        || (b.maxCalls.Some? && CallCount(calls, b, now) >= b.maxCalls.value))
  }

  /** Recording a call alerts exactly the budgets it counts towards that are over, each with what it has spent. */
  lemma {:induction false} AlertsAreExact(budgets: seq<Budget>, calls: seq<Call>, call: Call, now: int, b: Budget,
                                          spent: real)
    ensures (b, spent) in Alerts(budgets, calls, call, now) <==>
      && b in budgets && spent == Spent(calls, b, now)
      && b.tenant == call.tenant && (b.workload == "" || b.workload == call.workload)
      && (spent > b.limitEur
          || (call.costEur.None? && b.maxCalls.Some? && CallCount(calls, b, now) > b.maxCalls.value))
  {
    hide Spent, CallCount;
    if budgets != [] {
      AlertsAreExact(budgets[1..], calls, call, now, b, spent);
      assert b in budgets <==> b == budgets[0] || b in budgets[1..];
    }
  }

  class Meter {
    var budgets: seq<Budget>
    var calls: seq<Call>
    var alerts: seq<(Budget, real)>

    constructor (budgets: seq<Budget>)
      ensures this.budgets == budgets && calls == [] && alerts == []
    {
      this.budgets, calls, alerts := budgets, [], [];
    }

    method Record(call: Call, now: int)
      modifies this`calls, this`alerts
      ensures calls == old(calls) + [call]
      ensures alerts == old(alerts) + Alerts(budgets, calls, call, now)
    {
      hide Spent, CallCount;
      calls := calls + [call];
      for i := 0 to |budgets|
        invariant calls == old(calls) + [call]
        invariant alerts + Alerts(budgets[i..], calls, call, now) == old(alerts) + Alerts(budgets, calls, call, now)
      {
        var b := budgets[i];
        assert budgets[i..][1..] == budgets[i + 1..];
        if b.tenant == call.tenant && (b.workload == "" || b.workload == call.workload) {
          var spent := Spent(calls, b, now);
          if spent > b.limitEur {
            alerts := alerts + [(b, spent)];
          } else if call.costEur.None? && b.maxCalls.Some? && CallCount(calls, b, now) > b.maxCalls.value {
            alerts := alerts + [(b, spent)];
          }
        }
      }
    }

    method FindExhausted(tenant: Name, workload: Name, now: int) returns (r: Option<Budget>)
      ensures r == ExhaustedHardBudget(budgets, calls, tenant, workload, now)
    {
      for i := 0 to |budgets|
        invariant ExhaustedHardBudget(budgets[i..], calls, tenant, workload, now)
               == ExhaustedHardBudget(budgets, calls, tenant, workload, now)
      {
        var b := budgets[i];
        assert budgets[i..][1..] == budgets[i + 1..];
        if b.hard && b.tenant == tenant && (b.workload == "" || b.workload == workload) {
          if Spent(calls, b, now) >= b.limitEur {
            return Some(b);
          }
          if b.maxCalls.Some? && CallCount(calls, b, now) >= b.maxCalls.value {
            return Some(b);
          }
        }
      }
      return None;
    }
  }
}
