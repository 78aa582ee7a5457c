/**
  `LoginRateLimiter`: a bounded, ordered table of attempt counters. Every call prunes what has expired; when the table
  is full the oldest entry makes room.
 */
module LoginLimiter {
  import opened Basics

  /** An entry of the map, in insertion order. */
  datatype Entry = Entry(key: string, count: int, resetAt: int)

  datatype Limits = Limits(max: int, window: nat, capacity: int)

  function Find(s: seq<Entry>, key: string): (i: nat)
    ensures i <= |s|
    ensures i < |s| ==> s[i].key == key
    ensures forall j :: 0 <= j < i ==> s[j].key != key
  {
    if s == [] || s[0].key == key then 0 else Find(s[1..], key) + 1
  }

  /** `map.get(key)` */
  function Lookup(s: seq<Entry>, key: string): Option<Entry> {
    if s == [] then None else if s[0].key == key then Some(s[0]) else Lookup(s[1..], key)
  }

  function Pruned(s: seq<Entry>, now: int): seq<Entry> {
    if s == [] then [] else (if s[0].resetAt < now then [] else [s[0]]) + Pruned(s[1..], now)
  }

  /** Room for a new key: the oldest entry goes once the table is full. */
  function Evicted(l: Limits, s: seq<Entry>): seq<Entry> {
    if |s| >= l.capacity && s != [] then s[1..] else s
  }

  function Allow(l: Limits, before: seq<Entry>, key: string, now: int): (seq<Entry>, bool) {
    var s := Pruned(before, now);
    var i := Find(s, key);
    if i == |s| then (Evicted(l, s) + [Entry(key, 1, now + l.window)], true)
    else if s[i].resetAt < now then (s[i := Entry(key, 1, now + l.window)], true)
    else (s[i := s[i].(count := s[i].count + 1)], s[i].count + 1 <= l.max)
  }

  function Reset(s: seq<Entry>, key: string): seq<Entry> {
    var i := Find(s, key);
    if i < |s| then s[..i] + s[i + 1..] else s
  }

  class LoginRateLimiter {
    const limits: Limits
    var attempts: seq<Entry>

    constructor (limits: Limits)
      ensures this.limits == limits && attempts == []
    {
      this.limits := limits;
      attempts := [];
    }

    method AllowAttempt(key: string, now: int) returns (allowed: bool)
      modifies this
      ensures (attempts, allowed) == Allow(limits, old(attempts), key, now)
    {
      Prune(now);
      var i := Find(attempts, key);
      if i == |attempts| || attempts[i].resetAt < now {
        if i == |attempts| {
          if |attempts| >= limits.capacity {
            EvictOldest();
          }
          attempts := attempts + [Entry(key, 1, now + limits.window)];
        } else {
          attempts := attempts[i := Entry(key, 1, now + limits.window)];
        }
        return true;
      }
      attempts := attempts[i := attempts[i].(count := attempts[i].count + 1)];
      return attempts[i].count <= limits.max;
    }

    method ResetKey(key: string)
      modifies this
      ensures attempts == Reset(old(attempts), key)
    {
      var i := Find(attempts, key);
      if i < |attempts| {
        attempts := attempts[..i] + attempts[i + 1..];
      }
    }

    method Prune(now: int)
      modifies this
      ensures attempts == Pruned(old(attempts), now)
    {
      var kept := [];
      for i := 0 to |attempts|
        invariant attempts == old(attempts)
        invariant kept + Pruned(attempts[i..], now) == Pruned(attempts, now)
      {
        assert attempts[i..][1..] == attempts[i + 1..];
        if attempts[i].resetAt >= now {
          kept := kept + [attempts[i]];
        }
      }
      attempts := kept;
    }

    method EvictOldest()
      modifies this
      ensures attempts == if old(attempts) == [] then [] else old(attempts)[1..]
    {
      if |attempts| > 0 {
        attempts := attempts[1..];
      }
    }
  }

  // ---------- runs ----------

  datatype Op = Attempt(key: string, now: int) | Forget(key: string)

  function Step(l: Limits, s: seq<Entry>, op: Op): seq<Entry> {
    match op
    case Attempt(key, now) => Allow(l, s, key, now).0
    case Forget(key) => Reset(s, key)
  }

  function Run(l: Limits, ops: seq<Op>): seq<Entry> {
    if ops == [] then [] else Step(l, Run(l, ops[..|ops| - 1]), ops[|ops| - 1])
  }

  // ---------- the table ----------

  predicate DistinctKeys(s: seq<Entry>) {
    forall i, j :: 0 <= i < j < |s| ==> s[i].key != s[j].key
  }

  lemma {:induction false} PrunedFacts(s: seq<Entry>, now: int)
    ensures |Pruned(s, now)| <= |s|
    ensures forall e :: e in Pruned(s, now) <==> e in s && e.resetAt >= now
  {
    if s != [] {
      PrunedFacts(s[1..], now);
      assert forall e :: e in s <==> e == s[0] || e in s[1..];
    }
  }

  lemma {:induction false} PrunedDistinct(s: seq<Entry>, now: int)
    requires DistinctKeys(s)
    ensures DistinctKeys(Pruned(s, now))
  {
    if s != [] {
      PrunedDistinct(s[1..], now);
      PrunedFacts(s[1..], now);
      var rest := Pruned(s[1..], now);
      forall j | 0 <= j < |rest| ensures rest[j].key != s[0].key {
        assert rest[j] in rest;
        var i :| 0 <= i < |s[1..]| && s[1..][i] == rest[j];
        assert s[i + 1] == rest[j];
      }
    }
  }

  function Room(l: Limits): nat {
    if l.capacity > 1 then l.capacity else 1
  }

  lemma StepIsBounded(l: Limits, s: seq<Entry>, op: Op)
    requires |s| <= Room(l) && DistinctKeys(s)
    ensures |Step(l, s, op)| <= Room(l) && DistinctKeys(Step(l, s, op))
  {
    hide DistinctKeys, Room, Reset;
    match op
    case Attempt(key, now) =>
      PrunedFacts(s, now);
      PrunedDistinct(s, now);
      hide Pruned, Find, Evicted;
      var p := Pruned(s, now);
      var i := Find(p, key);
      if i == |p| {
        AdmittedIsBounded(l, p, Entry(key, 1, now + l.window));
      } else if p[i].resetAt < now {
        OverwriteDistinct(p, i, Entry(key, 1, now + l.window));
      } else {
        OverwriteDistinct(p, i, p[i].(count := p[i].count + 1));
      }
    case Forget(key) =>
      ResetIsBounded(s, key);
  }

  lemma OverwriteDistinct(p: seq<Entry>, i: nat, e: Entry)
    requires DistinctKeys(p) && i < |p| && e.key == p[i].key
    ensures DistinctKeys(p[i := e])
  {}

  lemma AdmittedIsBounded(l: Limits, p: seq<Entry>, e: Entry)
    requires |p| <= Room(l) && DistinctKeys(p) && forall j :: 0 <= j < |p| ==> p[j].key != e.key
    ensures |Evicted(l, p) + [e]| <= Room(l) && DistinctKeys(Evicted(l, p) + [e])
  {}

  lemma ResetIsBounded(s: seq<Entry>, key: string)
    requires DistinctKeys(s)
    ensures |Reset(s, key)| <= |s| && DistinctKeys(Reset(s, key))
  {}

  /** In every run the table holds at most `capacity` entries (one, if the capacity is smaller), one per key. */
  lemma {:induction false} TableIsBounded(l: Limits, ops: seq<Op>)
    ensures |Run(l, ops)| <= Room(l) && DistinctKeys(Run(l, ops))
    decreases |ops|
  {
    hide Step, DistinctKeys, Room;
    if ops == [] {
      EmptyIsBounded(l);
    } else {
      TableIsBounded(l, ops[..|ops| - 1]);
      StepIsBounded(l, Run(l, ops[..|ops| - 1]), ops[|ops| - 1]);
    }
  }

  lemma EmptyIsBounded(l: Limits)
    ensures 0 <= Room(l) && DistinctKeys([])
  {}

  // ---------- one key ----------

  /** What happened to one attempt: was a new counter opened for it, was it allowed? */
  datatype Outcome = Outcome(now: int, started: bool, allowed: bool)

  function OutcomeOf(l: Limits, s: seq<Entry>, key: string, now: int): Outcome {
    Outcome(now, Lookup(Pruned(s, now), key).None?, Allow(l, s, key, now).1)
  }

  /** The outcomes of the key's attempts over a run. */
  function Log(l: Limits, ops: seq<Op>, key: string): seq<Outcome> {
    if ops == [] then []
    else
      var before := ops[..|ops| - 1];
      var op := ops[|ops| - 1];
      Log(l, before, key) + if op.Attempt? && op.key == key then [OutcomeOf(l, Run(l, before), key, op.now)] else []
  }

  /** The operation removes the key's counter although it has not expired. */
  predicate Loses(l: Limits, s: seq<Entry>, op: Op, key: string) {
    match op
    case Forget(k) => k == key
    case Attempt(k, now) =>
      var p := Pruned(s, now);
      Lookup(p, k).None? && p != [] && |p| >= l.capacity && p[0].key == key
  }

  /** The key is never reset and never evicted. */
  predicate NeverLost(l: Limits, ops: seq<Op>, key: string) {
    ops != [] ==> NeverLost(l, ops[..|ops| - 1], key) && !Loses(l, Run(l, ops[..|ops| - 1]), ops[|ops| - 1], key)
  }

  /** Attempts come with a clock that does not go back. */
  predicate ClockOk(ops: seq<Op>) {
    forall i, j :: 0 <= i < j < |ops| && ops[i].Attempt? && ops[j].Attempt? ==> ops[i].now <= ops[j].now
  }

  /** Where the current counter was opened. */
  function OpenIndex(log: seq<Outcome>): (i: nat)
    ensures i <= |log|
    ensures i < |log| ==> log[i].started || i == 0
  {
    if log == [] then 0
    else if log[|log| - 1].started then |log| - 1
    else OpenIndex(log[..|log| - 1])
  }

  /** A counter lives for a whole window after it was opened; its first attempt and then up to `max` are allowed. */
  predicate LogOk(l: Limits, log: seq<Outcome>) {
    log != [] ==>
      var init, last := log[..|log| - 1], log[|log| - 1];
      && LogOk(l, init)
      && (init != [] ==> init[|init| - 1].now <= last.now)
      && (last.started <==> init == [] || last.now > init[OpenIndex(init)].now + l.window)
      && (last.allowed <==> last.started || |log| - OpenIndex(log) <= l.max)
  }

  lemma {:induction false} OpenIndexInside(l: Limits, log: seq<Outcome>)
    requires LogOk(l, log) && log != []
    ensures OpenIndex(log) < |log| && log[OpenIndex(log)].started
    ensures log[OpenIndex(log)].now <= log[|log| - 1].now
  {
    if !log[|log| - 1].started {
      OpenIndexInside(l, log[..|log| - 1]);
    }
  }

  /** The counter's entry agrees with the log; without an entry the last counter has expired. */
  predicate Agrees(l: Limits, entry: Option<Entry>, log: seq<Outcome>, clock: int) {
    && (log != [] ==> OpenIndex(log) < |log| && log[|log| - 1].now <= clock)
    && (entry.Some? ==>
          && log != []
          && entry.value.count == |log| - OpenIndex(log)
          && entry.value.resetAt == log[OpenIndex(log)].now + l.window)
    && (entry.None? && log != [] ==> clock > log[OpenIndex(log)].now + l.window)
  }

  lemma {:induction false} LookupIsFind(s: seq<Entry>, key: string)
    ensures Lookup(s, key) == if Find(s, key) < |s| then Some(s[Find(s, key)]) else None
  {
    if s != [] {
      LookupIsFind(s[1..], key);
    }
  }

  lemma {:induction false} LookupConcat(a: seq<Entry>, b: seq<Entry>, key: string)
    ensures Lookup(a + b, key) == if Lookup(a, key).Some? then Lookup(a, key) else Lookup(b, key)
  {
    if a == [] {
      assert a + b == b;
    } else {
      LookupConcat(a[1..], b, key);
      assert (a + b)[1..] == a[1..] + b;
    }
  }

  /** Writing the entry at an index leaves other keys alone; writing it where the key is found changes that key. */
  lemma {:induction false} LookupWrite(s: seq<Entry>, i: nat, e: Entry, key: string)
    requires i < |s| && s[i].key == e.key && (key == e.key ==> i == Find(s, key))
    ensures Lookup(s[i := e], key) == if key == e.key then Some(e) else Lookup(s, key)
    decreases |s|
  {
    if i > 0 {
      LookupWrite(s[1..], i - 1, e, key);
      assert s[i := e][1..] == s[1..][i - 1 := e];
    } else {
      assert s[i := e][1..] == s[1..];
    }
  }

  /** Pruning keeps the key's entry unless it has expired. */
  lemma {:induction false} LookupPruned(s: seq<Entry>, key: string, now: int)
    requires DistinctKeys(s)
    ensures Lookup(Pruned(s, now), key)
         == if Lookup(s, key).Some? && Lookup(s, key).value.resetAt >= now then Lookup(s, key) else None
  {
    if s != [] {
      LookupPruned(s[1..], key, now);
      var rest := Pruned(s[1..], now);
      assert [] + rest == rest && ([s[0]] + rest)[1..] == rest;
      LookupIsFind(s[1..], key);
      var i := Find(s[1..], key);
      assert i < |s| - 1 ==> s[i + 1].key == key;
    }
  }

  /** Pruning has already removed every expired entry, so the branch that renews one in place is never taken. */
  lemma RenewalIsUnreachable(s: seq<Entry>, key: string, now: int)
    ensures var p := Pruned(s, now); Find(p, key) < |p| ==> p[Find(p, key)].resetAt >= now
  {
    PrunedFacts(s, now);
    var p := Pruned(s, now);
    if Find(p, key) < |p| {
      assert p[Find(p, key)] in p;
    }
  }

  /** What an operation about another key does to this one: at most expire it, unless it loses it. */
  lemma OtherKeyKept(l: Limits, s: seq<Entry>, op: Op, key: string)
    requires DistinctKeys(s) && op.key != key && !Loses(l, s, op, key)
    ensures Lookup(Step(l, s, op), key)
         == if op.Attempt? && Lookup(s, key).Some? && Lookup(s, key).value.resetAt < op.now
            then None else Lookup(s, key)
  {
    hide Lookup, Loses, DistinctKeys, Allow, Pruned, Reset;
    match op
    case Forget(k) =>
      ResetOther(s, k, key);
    case Attempt(k, now) =>
      LookupPruned(s, key, now);
      AllowOther(l, s, k, key, now);
  }

  lemma ResetOther(s: seq<Entry>, k: string, key: string)
    requires k != key
    ensures Lookup(Reset(s, k), key) == Lookup(s, key)
  {
    var i := Find(s, k);
    if i < |s| {
      LookupConcat(s[..i], [s[i]] + s[i + 1..], key);
      LookupConcat(s[..i], s[i + 1..], key);
      assert s == s[..i] + ([s[i]] + s[i + 1..]);
      assert ([s[i]] + s[i + 1..])[1..] == s[i + 1..];
    }
  }

  /** Another key's attempt, after pruning. */
  lemma AllowOther(l: Limits, s: seq<Entry>, k: string, key: string, now: int)
    requires k != key && !Loses(l, s, Attempt(k, now), key)
    ensures Lookup(Allow(l, s, k, now).0, key) == Lookup(Pruned(s, now), key)
  {
    hide Pruned, Find;
    var p := Pruned(s, now);
    var i := Find(p, k);
    LookupIsFind(p, k);
    if i == |p| {
      LookupConcat(Evicted(l, p), [Entry(k, 1, now + l.window)], key);
    } else {
      hide Lookup;
      var entry := if p[i].resetAt < now then Entry(k, 1, now + l.window) else p[i].(count := p[i].count + 1);
      LookupWrite(p, i, entry, key);
    }
  }

  /** The key's own entry after an attempt on a pruned table: a new counter at the end, or one more on its counter. */
  lemma AllowOwn(l: Limits, s: seq<Entry>, key: string, now: int)
    ensures var found := Lookup(Pruned(s, now), key);
            Lookup(Allow(l, s, key, now).0, key)
            == Some(if found.Some? then found.value.(count := found.value.count + 1) else Entry(key, 1, now + l.window))
    ensures var found := Lookup(Pruned(s, now), key);
            Allow(l, s, key, now).1 == (found.None? || found.value.count + 1 <= l.max)
  {
    RenewalIsUnreachable(s, key, now);
    hide Pruned, Find;
    var p := Pruned(s, now);
    var i := Find(p, key);
    LookupIsFind(p, key);
    if i == |p| {
      LookupNoMore(l, p, key);
      LookupConcat(Evicted(l, p), [Entry(key, 1, now + l.window)], key);
    } else {
      hide Lookup;
      LookupWrite(p, i, p[i].(count := p[i].count + 1), key);
    }
  }

  lemma LookupNoMore(l: Limits, p: seq<Entry>, key: string)
    requires Lookup(p, key).None?
    ensures Lookup(Evicted(l, p), key).None?
  {}

  /** An attempt on the key itself: one more on its live counter, or a new counter. */
  lemma OwnKey(l: Limits, s: seq<Entry>, key: string, now: int)
    requires DistinctKeys(s)
    ensures var before := Lookup(s, key);
            var live := before.Some? && before.value.resetAt >= now;
            && OutcomeOf(l, s, key, now) == Outcome(now, !live, !live || before.value.count + 1 <= l.max)
            && Lookup(Allow(l, s, key, now).0, key)
            == Some(if live then before.value.(count := before.value.count + 1) else Entry(key, 1, now + l.window))
  {
    hide Pruned, DistinctKeys, Lookup, Allow;
    LookupPruned(s, key, now);
    AllowOwn(l, s, key, now);
  }

  function Clock(ops: seq<Op>, start: int): int {
    if ops == [] then start
    else if ops[|ops| - 1].Attempt? then ops[|ops| - 1].now
    else Clock(ops[..|ops| - 1], start)
  }

  lemma {:induction false} LogIsOk(l: Limits, ops: seq<Op>, key: string, start: int)
    requires ClockOk(ops) && NeverLost(l, ops, key)
    requires forall i :: 0 <= i < |ops| && ops[i].Attempt? ==> start <= ops[i].now
    ensures LogOk(l, Log(l, ops, key)) && Agrees(l, Lookup(Run(l, ops), key), Log(l, ops, key), Clock(ops, start))
    decreases |ops|
  {
    hide Step, Loses, OutcomeOf, Agrees, LogOk, DistinctKeys;
    if ops == [] {
      EmptyAgrees(l, start);
    } else {
      var before, op := ops[..|ops| - 1], ops[|ops| - 1];
      LogIsOk(l, before, key, start);
      TableIsBounded(l, before);
      if op.Attempt? {
        LastClockReading(ops, start);
      }
      if op.key != key {
        OtherAgrees(l, Run(l, before), op, key, Log(l, before, key), Clock(before, start));
        assert Log(l, before, key) + [] == Log(l, before, key);
      } else {
        OwnForgetLoses(l, Run(l, before), op);
        OwnAgrees(l, Run(l, before), key, Log(l, before, key), Clock(before, start), op.now);
      }
    }
  }

  lemma EmptyAgrees(l: Limits, start: int)
    ensures Agrees(l, None, [], start) && LogOk(l, [])
  {}

  lemma OwnForgetLoses(l: Limits, s: seq<Entry>, op: Op)
    ensures op.Forget? ==> Loses(l, s, op, op.key)
  {}

  lemma LastClockReading(ops: seq<Op>, start: int)
    requires ClockOk(ops) && ops != [] && ops[|ops| - 1].Attempt?
    requires forall i :: 0 <= i < |ops| && ops[i].Attempt? ==> start <= ops[i].now
    ensures Clock(ops[..|ops| - 1], start) <= ops[|ops| - 1].now
  {
    ClockFromRun(ops[..|ops| - 1], start);
  }

  lemma {:induction false} ClockFromRun(ops: seq<Op>, start: int)
    ensures || Clock(ops, start) == start
            || exists i :: 0 <= i < |ops| && ops[i].Attempt? && ops[i].now == Clock(ops, start)
  {
    if ops != [] && ops[|ops| - 1].Forget? {
      ClockFromRun(ops[..|ops| - 1], start);
    }
  }

  lemma OtherAgrees(l: Limits, s: seq<Entry>, op: Op, key: string, log: seq<Outcome>, clock: int)
    requires Agrees(l, Lookup(s, key), log, clock) && DistinctKeys(s) && op.key != key && !Loses(l, s, op, key)
    requires op.Attempt? ==> clock <= op.now
    ensures Agrees(l, Lookup(Step(l, s, op), key), log, if op.Attempt? then op.now else clock)
  {
    OtherKeyKept(l, s, op, key);
    hide Step, Lookup, Loses, DistinctKeys;
  }

  lemma OwnAgrees(l: Limits, s: seq<Entry>, key: string, log: seq<Outcome>, clock: int, now: int)
    requires LogOk(l, log) && Agrees(l, Lookup(s, key), log, clock) && DistinctKeys(s) && clock <= now
    ensures LogOk(l, log + [OutcomeOf(l, s, key, now)])
    ensures Agrees(l, Lookup(Step(l, s, Attempt(key, now)), key), log + [OutcomeOf(l, s, key, now)], now)
  {
    OwnKey(l, s, key, now);
    hide Lookup, OutcomeOf, Allow, DistinctKeys;
    var o := OutcomeOf(l, s, key, now);
    var longer := log + [o];
    assert longer[..|log|] == log && longer[|log|] == o;
    assert OpenIndex(longer) == if o.started then |log| else OpenIndex(log);
    if log != [] {
      OpenIndexInside(l, log);
    }
  }

  // ---------- how many attempts are allowed ----------

  function Allowed(log: seq<Outcome>): nat {
    if log == [] then 0 else Allowed(log[..|log| - 1]) + if log[|log| - 1].allowed then 1 else 0
  }

  function PerCounter(l: Limits): nat {
    if l.max > 1 then l.max else 1
  }

  /** While a counter lives, exactly the first `max` attempts (at least one) are allowed. */
  lemma {:induction false} CounterAllows(l: Limits, log: seq<Outcome>)
    requires LogOk(l, log) && log != []
    ensures OpenIndex(log) < |log|
    ensures var calls := |log| - OpenIndex(log);
            Allowed(log[OpenIndex(log)..]) == if calls < PerCounter(l) then calls else PerCounter(l)
  {
    var init, last := log[..|log| - 1], log[|log| - 1];
    OpenIndexInside(l, log);
    var tail := log[OpenIndex(log)..];
    if last.started {
      assert tail == [last] && tail[..0] == [];
    } else {
      CounterAllows(l, init);
      assert tail[..|tail| - 1] == init[OpenIndex(init)..];
    }
  }

  lemma {:induction false} AllowedConcat(a: seq<Outcome>, b: seq<Outcome>)
    ensures Allowed(a + b) == Allowed(a) + Allowed(b)
  {
    if b == [] {
      assert a + b == a;
    } else {
      AllowedConcat(a, b[..|b| - 1]);
      assert (a + b)[..|a + b| - 1] == a + b[..|b| - 1];
    }
  }

  lemma {:induction false} LogOkPrefix(l: Limits, log: seq<Outcome>, n: nat)
    requires LogOk(l, log) && n <= |log|
    ensures LogOk(l, log[..n])
  {
    if n < |log| {
      LogOkPrefix(l, log[..|log| - 1], n);
      assert log[..|log| - 1][..n] == log[..n];
    } else {
      assert log[..n] == log;
    }
  }

  lemma {:induction false} TimesAscend(l: Limits, log: seq<Outcome>, i: nat, j: nat)
    requires LogOk(l, log) && i <= j < |log|
    ensures log[i].now <= log[j].now
    decreases |log|
  {
    if j < |log| - 1 {
      TimesAscend(l, log[..|log| - 1], i, j);
    } else if i < j {
      TimesAscend(l, log[..|log| - 1], i, j - 1);
    }
  }

  /** The part of the log from `i` on that belongs to the last counter allows at most `max`. */
  lemma TailIsBounded(l: Limits, log: seq<Outcome>, i: nat)
    requires LogOk(l, log) && log != [] && OpenIndex(log) <= i <= |log|
    ensures Allowed(log[i..]) <= PerCounter(l)
  {
    CounterAllows(l, log);
    var o := OpenIndex(log);
    assert log[o..] == log[o..i] + log[i..];
    AllowedConcat(log[o..i], log[i..]);
  }

  /** Any stretch of the log no longer than one window touches at most two counters. */
  lemma StretchIsBounded(l: Limits, log: seq<Outcome>, i: nat)
    requires LogOk(l, log) && i < |log| && log[|log| - 1].now - log[i].now <= l.window
    ensures Allowed(log[i..]) <= 2 * PerCounter(l)
  {
    hide LogOk;
    OpenIndexInside(l, log);
    var o := OpenIndex(log);
    if o <= i {
      TailIsBounded(l, log, i);
    } else {
      var earlier := log[..o];
      LogOkPrefix(l, log, o);
      LogOkPrefix(l, log, o + 1);
      OpenedAfterWindow(l, log[..o + 1]);
      assert log[..o + 1][..o] == earlier;
      OpenIndexInside(l, earlier);
      TimesAscend(l, log, o, |log| - 1);
      if OpenIndex(earlier) > i {
        TimesAscend(l, log, i, OpenIndex(earlier));
      }
      TailIsBounded(l, earlier, i);
      TailIsBounded(l, log, o);
      assert log[i..] == earlier[i..] + log[o..];
      AllowedConcat(earlier[i..], log[o..]);
    }
  }

  lemma OpenedAfterWindow(l: Limits, log: seq<Outcome>)
    requires LogOk(l, log) && |log| > 1 && log[|log| - 1].started
    ensures OpenIndex(log[..|log| - 1]) < |log| - 1
    ensures log[|log| - 1].now > log[..|log| - 1][OpenIndex(log[..|log| - 1])].now + l.window
  {
    OpenIndexInside(l, log[..|log| - 1]);
  }

  /**
    A key that is never reset or evicted: within any stretch of time of one window's length at most twice `max` of
    its attempts are allowed.
   */
  lemma WindowIsBounded(l: Limits, ops: seq<Op>, key: string, i: nat, j: nat)
    requires ClockOk(ops) && NeverLost(l, ops, key)
    requires i < j <= |Log(l, ops, key)|
    requires Log(l, ops, key)[j - 1].now - Log(l, ops, key)[i].now <= l.window
    ensures Allowed(Log(l, ops, key)[i..j]) <= 2 * PerCounter(l)
  {
    hide LogOk, Log, NeverLost, Run, Clock, Agrees, Allowed;
    var start := Earliest(ops);
    LogIsOk(l, ops, key, start);
    var log := Log(l, ops, key);
    LogOkPrefix(l, log, j);
    assert log[..j][i..] == log[i..j];
    StretchIsBounded(l, log[..j], i);
  }

  /** A time no attempt precedes. */
  lemma {:induction false} Earliest(ops: seq<Op>) returns (start: int)
    ensures forall i :: 0 <= i < |ops| && ops[i].Attempt? ==> start <= ops[i].now
  {
    if ops == [] {
      start := 0;
    } else {
      start := Earliest(ops[..|ops| - 1]);
      if ops[|ops| - 1].Attempt? && ops[|ops| - 1].now < start {
        start := ops[|ops| - 1].now;
      }
    }
  }

  /** Each counter allows exactly the first `max` of the attempts made while it lives, and one at the very least. */
  lemma LifetimeIsExact(l: Limits, ops: seq<Op>, key: string)
    requires ClockOk(ops) && NeverLost(l, ops, key) && Log(l, ops, key) != []
    ensures var log := Log(l, ops, key);
            && OpenIndex(log) < |log|
            && var calls := |log| - OpenIndex(log);
               Allowed(log[OpenIndex(log)..]) == if calls < PerCounter(l) then calls else PerCounter(l)
  {
    var start := Earliest(ops);
    LogIsOk(l, ops, key, start);
    CounterAllows(l, Log(l, ops, key));
  }

  // ---------- the oldest entry ----------

  /** Entries stand in the order in which they will reset. */
  predicate OldestFirst(s: seq<Entry>) {
    forall i, j :: 0 <= i < j < |s| ==> s[i].resetAt <= s[j].resetAt
  }

  /** Every entry was opened by an attempt at or before `now`, so that it resets at most a window later. */
  predicate OpenedBy(l: Limits, s: seq<Entry>, now: int) {
    forall e :: e in s ==> e.resetAt <= now + l.window
  }

  lemma {:induction false} PrunedOldestFirst(s: seq<Entry>, now: int)
    requires OldestFirst(s)
    ensures OldestFirst(Pruned(s, now))
  {
    if s != [] {
      PrunedOldestFirst(s[1..], now);
      PrunedFacts(s[1..], now);
      var rest := Pruned(s[1..], now);
      forall j | 0 <= j < |rest| ensures s[0].resetAt <= rest[j].resetAt {
        assert rest[j] in rest;
        var i :| 0 <= i < |s[1..]| && s[1..][i] == rest[j];
        assert s[i + 1] == rest[j];
      }
    }
  }

  lemma AdmittedOldestFirst(l: Limits, p: seq<Entry>, e: Entry, now: int)
    requires OldestFirst(p) && OpenedBy(l, p, now) && e.resetAt == now + l.window
    ensures OldestFirst(Evicted(l, p) + [e]) && OpenedBy(l, Evicted(l, p) + [e], now)
  {
    forall i | 0 <= i < |p| ensures p[i].resetAt <= e.resetAt {
      assert p[i] in p;
    }
  }

  lemma CountedOldestFirst(l: Limits, p: seq<Entry>, i: nat, e: Entry, now: int)
    requires OldestFirst(p) && OpenedBy(l, p, now) && i < |p| && e.resetAt == p[i].resetAt
    ensures OldestFirst(p[i := e]) && OpenedBy(l, p[i := e], now)
  {
    assert p[i] in p;
  }

  lemma ResetOldestFirst(l: Limits, s: seq<Entry>, key: string, now: int)
    requires OldestFirst(s) && OpenedBy(l, s, now)
    ensures OldestFirst(Reset(s, key)) && OpenedBy(l, Reset(s, key), now)
  {}

  lemma StepOldestFirst(l: Limits, s: seq<Entry>, op: Op, now: int)
    requires OldestFirst(s) && OpenedBy(l, s, now) && (op.Attempt? ==> now <= op.now)
    ensures OldestFirst(Step(l, s, op)) && OpenedBy(l, Step(l, s, op), if op.Attempt? then op.now else now)
  {
    hide OldestFirst, Reset, Evicted;
    match op
    case Forget(key) => ResetOldestFirst(l, s, key, now);
    case Attempt(key, at) =>
      PrunedOldestFirst(s, at);
      PrunedFacts(s, at);
      RenewalIsUnreachable(s, key, at);
      hide Pruned, Find;
      var p := Pruned(s, at);
      var i := Find(p, key);
      assert OpenedBy(l, p, at);
      hide OpenedBy;
      if i == |p| {
        AdmittedOldestFirst(l, p, Entry(key, 1, at + l.window), at);
      } else {
        CountedOldestFirst(l, p, i, p[i].(count := p[i].count + 1), at);
      }
  }

  /** With a clock that does not go back the entry evicted from a full table is the one that would reset first. */
  lemma {:induction false} TableIsOldestFirst(l: Limits, ops: seq<Op>, now: int)
    requires ClockOk(ops) && forall i :: 0 <= i < |ops| && ops[i].Attempt? ==> ops[i].now <= now
    ensures OldestFirst(Run(l, ops)) && OpenedBy(l, Run(l, ops), now)
    decreases |ops|
  {
    hide Step, OldestFirst, OpenedBy;
    if ops == [] {
      NothingOpened(l, now);
    } else {
      var n := |ops| - 1;
      var at := if ops[n].Attempt? then ops[n].now else now;
      TableIsOldestFirst(l, ops[..n], at);
      StepOldestFirst(l, Run(l, ops[..n]), ops[n], at);
      OpenedEarlier(l, Run(l, ops), at, now);
    }
  }

  lemma NothingOpened(l: Limits, now: int)
    ensures OldestFirst([]) && OpenedBy(l, [], now)
  {}

  lemma OpenedEarlier(l: Limits, s: seq<Entry>, at: int, now: int)
    requires OpenedBy(l, s, at) && at <= now
    ensures OpenedBy(l, s, now)
  {}

  // ---------- what a call does to the table ----------

  /**
    An attempt with a live counter adds one to it and is allowed up to the maximum; any other opens a counter that
    lives for the window and is allowed. A counter is live up to and including the moment it resets.
   */
  lemma AttemptActs(l: Limits, s: seq<Entry>, key: string, now: int)
    requires DistinctKeys(s)
    ensures var (t, allowed) := Allow(l, s, key, now);
            var live := Lookup(s, key).Some? && now <= Lookup(s, key).value.resetAt;
            var own := Lookup(t, key);
            && own.Some?
            && (live ==>
                  own.value.count == Lookup(s, key).value.count + 1 && own.value.resetAt == Lookup(s, key).value.resetAt
                  && (allowed <==> own.value.count <= l.max))
            && (!live ==> allowed && own.value.count == 1 && own.value.resetAt == now + l.window)
  {
    hide DistinctKeys, Allow, Pruned, Find;
    AllowOwn(l, s, key, now);
    LookupPruned(s, key, now);
  }

  /**
    Another key's attempt leaves a live counter as it is, unless the table is full of live counters, the attempt needs
    a new one and this is the oldest.
   */
  lemma AttemptSpares(l: Limits, s: seq<Entry>, k: string, key: string, now: int)
    requires DistinctKeys(s) && k != key && Lookup(s, key).Some? && now <= Lookup(s, key).value.resetAt
    ensures var live := Pruned(s, now);
            (Lookup(live, k).None? && |live| >= l.capacity && live != [] && live[0].key == key)
            || Lookup(Allow(l, s, k, now).0, key) == Lookup(s, key)
  {
    hide Lookup, DistinctKeys, Allow, Pruned;
    LookupPruned(s, key, now);
    if !Loses(l, s, Attempt(k, now), key) {
      AllowOther(l, s, k, key, now);
    }
  }

  /** A reset forgets the key and no other. */
  lemma ResetForgets(s: seq<Entry>, key: string, other: string)
    requires DistinctKeys(s) && other != key
    ensures Lookup(Reset(s, key), key) == None && Lookup(Reset(s, key), other) == Lookup(s, other)
  {
    ResetOther(s, key, other);
    LookupIsFind(Reset(s, key), key);
    LookupIsFind(s, key);
    hide Lookup;
    var t := Reset(s, key);
    if Find(t, key) < |t| {
      assert t[Find(t, key)].key == key;
      assert t[Find(t, key)] in t;
    }
  }
}
