/**
  What the publication state machine guarantees over whole runs. Every theorem is about
  `Run(env, EMPTY, ops)` for an arbitrary sequence of operations with arbitrary clock readings.
 */
module PipelineTheorems {
  import opened Basics
  import opened PublicationPolicy
  import opened PipelineModel
  import opened PipelineInvariant

  lemma Reachable(env: Env, ops: seq<Op>)
    ensures Inv(env, Run(env, EMPTY, ops))
  {
    InitInv(env);
    RunKeeps(env, EMPTY, ops);
  }

  // ---------- what no operation undoes ----------

  predicate IsFinal(a: ApprovalStatus) {
    a == Refused || a == Expired || a == Consumed
  }

  /**
    Drafts and approvals are never removed; published drafts and final approvals never change; approval ids are
    fresh.
   */
  predicate Grows(s: State, t: State) {
    && s.nextId <= t.nextId
    && s.events <= t.events
    && (forall x :: x in s.drafts && x < s.nextId ==> x in t.drafts && DraftGrows(s.drafts[x], t.drafts[x], s.nextId))
    && (forall k :: k in s.approvals && k < s.nextId ==>
        k in t.approvals && ApprovalGrows(s.approvals[k], t.approvals[k]))
  }

  predicate DraftGrows(d: Draft, d': Draft, next: Id) {
    && d'.tenant == d.tenant
    && (d.status == Published ==> d' == d)
    && (d'.approvalId == d.approvalId || d'.approvalId.None? || d'.approvalId.value >= next)
  }

  predicate ApprovalGrows(a: Approval, a': Approval) {
    a'.draft == a.draft && (IsFinal(a.status) ==> a' == a)
  }

  lemma GrowsTransitive(s: State, t: State, u: State)
    requires Grows(s, t) && Grows(t, u)
    ensures Grows(s, u)
  {
    forall k | k in s.approvals && k < s.nextId
      ensures k in u.approvals && ApprovalGrows(s.approvals[k], u.approvals[k])
    {
      assert ApprovalGrows(s.approvals[k], t.approvals[k]);
    }
    forall x | x in s.drafts && x < s.nextId ensures x in u.drafts && DraftGrows(s.drafts[x], u.drafts[x], s.nextId) {
      assert DraftGrows(s.drafts[x], t.drafts[x], s.nextId);
    }
  }

  lemma ExpireGrows(s: State, k: Id, now: int)
    requires k in s.approvals
    ensures Grows(s, ExpireIfStale(s, k, now))
  {}

  lemma PutApprovalGrows(s: State, k: Id, a: Approval, e: Event)
    requires k in s.approvals && !IsFinal(s.approvals[k].status) && a.draft == s.approvals[k].draft
    ensures Grows(s, Log(PutApproval(s, k, a), e))
  {}

  lemma ConsumeGrows(s: State, ctx: Ctx, k: Id, hash: string, now: int)
    ensures Grows(s, AssertValid(s, ctx.tenant, k, hash, now).0)
    ensures Grows(s, ConsumeApproval(s, ctx, k, hash, now).0)
    ensures ConsumeApproval(s, ctx, k, hash, now).0.drafts == s.drafts
  {
    hide Grows;
    GrowsReflexive(s);
    if HasApproval(s, ctx.tenant, k) {
      ExpireGrows(s, k, now);
      if ConsumeApproval(s, ctx, k, hash, now).1.None? {
        var e := Event(ctx.tenant, ctx.actor, ApprovalConsumed, Some(s.approvals[k].draft), Some(k), now);
        PutApprovalGrows(s, k, s.approvals[k].(status := Consumed), e);
      }
    }
  }

  lemma DecisionGrows(s: State, ctx: Ctx, k: Id, grant: bool, excluded: set<string>, now: int)
    ensures Grows(s, DecideApproval(s, ctx, k, grant, excluded, now).0)
    ensures DecideApproval(s, ctx, k, grant, excluded, now).0.drafts == s.drafts
  {
    hide Grows;
    GrowsReflexive(s);
    if HasApproval(s, ctx.tenant, k) {
      ExpireGrows(s, k, now);
      var (t, error) := DecideApproval(s, ctx, k, grant, excluded, now);
      if error.None? {
        var e := Event(ctx.tenant, ctx.actor, ApprovalDecided(grant), Some(s.approvals[k].draft), Some(k), now);
        PutApprovalGrows(s, k, t.approvals[k], e);
      }
    }
  }

  lemma PutDraftGrows(s: State, id: Id, d: Draft, e: Event)
    requires id in s.drafts && s.drafts[id].status != Published
    requires d.tenant == s.drafts[id].tenant && d.approvalId == s.drafts[id].approvalId
    ensures Grows(s, Log(PutDraft(s, id, d), e))
  {}

  lemma DecideGrows(s: State, ctx: Ctx, id: Id, grant: bool, now: int)
    ensures Grows(s, DecideDraft(s, ctx, id, grant, now).0)
  {
    hide Grows, DecideApproval, Contributors;
    var t := DecideDraft(s, ctx, id, grant, now).0;
    if HasDraft(s, ctx.tenant, id) && s.drafts[id].status == AwaitingApproval && s.drafts[id].approvalId.Some? {
      var k := s.drafts[id].approvalId.value;
      DecisionGrows(s, ctx, k, grant, Contributors(s, ctx.tenant, id), now);
      var u := DecideApproval(s, ctx, k, grant, Contributors(s, ctx.tenant, id), now).0;
      if DecideDraft(s, ctx, id, grant, now).1.Done? {
        var e := Event(ctx.tenant, ctx.actor, DraftDecided(grant), Some(id), Some(k), now);
        PutDraftGrows(u, id, t.drafts[id], e);
        GrowsTransitive(s, u, t);
      }
    } else {
      GrowsReflexive(s);
    }
  }

  lemma FinishGrows(v: State, id: Id, d: Draft, p: Id, row: Publication, e: Event)
    requires id in v.drafts && v.drafts[id] == d && d.status != Published
    ensures Grows(v, Log(PutPublication(v, p, row), e))
    ensures forall at ::
         Grows(v, Log(PutDraft(PutPublication(v, p, row), id, d.(status := Published, publishedAt := at)), e))
  {}

  lemma PublishGrows(env: Env, s: State, ctx: Ctx, id: Id, target: string, editorial: Editorial, start: int,
                     ok: bool, finish: int)
    ensures Grows(s, PublishDraft(s, env, ctx, id, target, editorial, start, ok, finish).0)
  {
    hide ManifestFor, PayloadOf, MarkingMissing, AssertValid, ConsumeApproval, Grows;
    if HasDraft(s, ctx.tenant, id) && s.drafts[id].status == Approved {
      var d := s.drafts[id];
      var hash := env.fingerprint(PayloadOf(env, id, d));
      var p := s.nextId;
      var row := Publication(ctx.tenant, id, target, InFlight, d.body, env.sha(d.body),
                             ManifestFor(env, d, editorial.name));
      var u := PutPublication(s, p, row).(nextId := p + 1);
      RowGrows(s, row);
      FinishGrows(u, id, d, p, row.(status := FailedToPublish),
                  Event(ctx.tenant, ctx.actor, DraftPublishFailed, Some(id), None, finish));
      var done := Event(ctx.tenant, ctx.actor, DraftPublished(env.sha(d.body), d.reviewer), Some(id), d.approvalId,
                        finish);
      var v := if d.approvalId.Some? then ConsumeApproval(u, ctx, d.approvalId.value, hash, finish).0 else u;
      if d.approvalId.Some? {
        ConsumeGrows(s, ctx, d.approvalId.value, hash, start);
        ConsumeGrows(u, ctx, d.approvalId.value, hash, finish);
        GrowsTransitive(s, u, v);
      }
      FinishGrows(v, id, d, p, row.(status := Live), done);
      GrowsTransitive(s, u,
                      Log(PutPublication(u, p, row.(status := FailedToPublish)),
                          Event(ctx.tenant, ctx.actor, DraftPublishFailed, Some(id), None, finish)));
      GrowsTransitive(s, v,
                      Log(PutDraft(PutPublication(v, p, row.(status := Live)), id,
                                   d.(status := Published, publishedAt := Some(finish))), done));
    }
    GrowsReflexive(s);
  }

  lemma GrowsReflexive(s: State)
    ensures Grows(s, s)
  {}

  lemma RowGrows(s: State, row: Publication)
    ensures Grows(s, PutPublication(s, s.nextId, row).(nextId := s.nextId + 1))
  {}

  lemma CreateGrows(s: State, ctx: Ctx, input: NewDraft, now: int)
    ensures Grows(s, CreateDraft(s, ctx, input, now).0)
  {
    hide ValidSlug, SlugInUse;
  }

  lemma UpdateGrows(s: State, ctx: Ctx, id: Id, c: Changes, now: int)
    ensures Grows(s, UpdateDraft(s, ctx, id, c, now).0)
  {}

  lemma VerifyGrows(env: Env, s: State, ctx: Ctx, id: Id, now: int)
    ensures Grows(s, VerifyDraft(s, env, ctx, id, now).0)
  {}

  lemma GateGrows(env: Env, s: State, ctx: Ctx, id: Id, now: int)
    ensures Grows(s, GateDraft(s, env, ctx, id, now).0)
  {
    hide Decide, FactsOf, PayloadOf;
  }

  lemma StepGrows(env: Env, s: State, op: Op)
    ensures Grows(s, Step(env, s, op))
  {
    hide CreateDraft, UpdateDraft, VerifyDraft, GateDraft, PublishDraft, DecideDraft;
    match op
    case Create(ctx, input, now) => CreateGrows(s, ctx, input, now);
    case Update(ctx, id, changes, now) => UpdateGrows(s, ctx, id, changes, now);
    case Verify(ctx, id, now) => VerifyGrows(env, s, ctx, id, now);
    case Gate(ctx, id, now) => GateGrows(env, s, ctx, id, now);
    case DecideOn(ctx, id, grant, now) => DecideGrows(s, ctx, id, grant, now);
    case Publish(ctx, id, target, editorial, now, ok, finish) =>
      PublishGrows(env, s, ctx, id, target, editorial, now, ok, finish);
    case Retention(ctx, now) =>
  }

  // ---------- approval before publication ----------

  /**
    A published draft that needed approval was approved, for exactly this payload, by an outsider, in time and once.
   */
  lemma PublishedWasApproved(env: Env, ops: seq<Op>, x: Id)
    requires var s := Run(env, EMPTY, ops);
             x in s.drafts && s.drafts[x].status == Published
             && s.drafts[x].gate.Some? && s.drafts[x].gate.value.effect == RequireApproval
    ensures var s := Run(env, EMPTY, ops);
            var d := s.drafts[x];
            && d.approvalId.Some?
            && var k := d.approvalId.value;
            && k in s.approvals
            && var a := s.approvals[k];
            && a.status == Consumed
            && a.draft == x && a.tenant == d.tenant
            && a.payloadHash == env.fingerprint(PayloadOf(env, x, d))
            && a.decidedBy.Some?
            && a.decidedBy.value != a.requestedBy
            && a.decidedBy.value !in Contributors(s, d.tenant, x)
            && |ConsumedAt(s.events, k)| == 1
            && ConsumedAt(s.events, k)[0] - a.requestedAt <= VALIDITY
  {
    Reachable(env, ops);
    var s := Run(env, EMPTY, ops);
    assert DraftOk(env, s, x);
    assert ApprovalOk(s, s.drafts[x].approvalId.value);
  }

  ghost predicate Injective<A(!new), B>(f: A -> B) {
    forall a, b | f(a) == f(b) :: a == b
  }

  /** With collision-free hashing, the approval binds title, slug, AI flag and body, not just their hash. */
  lemma ApprovalBindsContent(env: Env, ops: seq<Op>, x: Id, title: string, slug: string, body: string, ai: bool)
    requires Injective(env.fingerprint) && Injective(env.sha)
    requires var s := Run(env, EMPTY, ops);
             x in s.drafts && s.drafts[x].status == Published && s.drafts[x].approvalId.Some?
             && s.drafts[x].approvalId.value in s.approvals
             && s.approvals[s.drafts[x].approvalId.value].payloadHash
                  == env.fingerprint(Payload(x, env.sha(body), title, slug, ai))
    ensures var d := Run(env, EMPTY, ops).drafts[x];
            d.title == title && d.slug == slug && d.body == body && d.aiAssisted == ai
  {
    hide Run, Inv, Contributors;
    var s := Run(env, EMPTY, ops);
    Reachable(env, ops);
    LinkFacts(env, s, x);
    var d := s.drafts[x];
    assert PayloadOf(env, x, d) == Payload(x, env.sha(body), title, slug, ai);
    assert env.sha(d.body) == env.sha(body);
  }

  /**
    The "payload changed since approval" branch is dead: when publishing an approved draft reports a missing
    approval, it lapsed.
   */
  lemma PayloadNeverChanged(env: Env, ops: seq<Op>, ctx: Ctx, id: Id, target: string, editorial: Editorial,
                            start: int, ok: bool, finish: int)
    requires var s := Run(env, EMPTY, ops);
             && HasDraft(s, ctx.tenant, id) && s.drafts[id].status == Approved
             && PublishDraft(s, env, ctx, id, target, editorial, start, ok, finish).1 == Threw(ApprovalRequired)
    ensures var s := Run(env, EMPTY, ops);
            var t := PublishDraft(s, env, ctx, id, target, editorial, start, ok, finish).0;
            && s.drafts[id].approvalId.Some?
            && var k := s.drafts[id].approvalId.value;
            k in s.approvals && k in t.approvals
            && t.approvals[k].status == Expired
            && t.approvals[k].payloadHash == env.fingerprint(PayloadOf(env, id, s.drafts[id]))
  {
    hide Run, Inv, ManifestFor, Contributors, PayloadOf, MarkingMissing;
    Reachable(env, ops);
    var s := Run(env, EMPTY, ops);
    if s.drafts[id].approvalId.Some? {
      LinkFacts(env, s, id);
    }
  }

  // ---------- four eyes ----------

  /** Everyone who created or edited the draft, with no limit on how far back the ledger is read. */
  function AllContributors(s: State, tenant: Name, id: Id): set<string>
    requires id in s.drafts
  {
    (if s.drafts[id].author == "" then {} else {s.drafts[id].author}) + Editors(DraftEvents(s.events, tenant, id))
  }

  /**
    For an approval that can still be decided, no contributor can decide it exactly when everyone who
    contributed is among the people the 10,000-event read returns (or made the request).
   */
  lemma FourEyesExact(s: State, tenant: Name, id: Id, grant: bool, now: int)
    requires HasDraft(s, tenant, id) && s.drafts[id].status == AwaitingApproval && s.drafts[id].approvalId.Some?
    requires HasApproval(s, tenant, s.drafts[id].approvalId.value)
    requires var a := s.approvals[s.drafts[id].approvalId.value]; a.status == Pending && !Stale(a, now)
    ensures var requester := s.approvals[s.drafts[id].approvalId.value].requestedBy;
            (forall who: Name :: DecideDraft(s, Ctx(tenant, who), id, grant, now).1.Done? ==>
               who !in AllContributors(s, tenant, id))
            <==> AllContributors(s, tenant, id) <= Contributors(s, tenant, id) + {requester}
  {
    var all, read := AllContributors(s, tenant, id), Contributors(s, tenant, id);
    var requester := s.approvals[s.drafts[id].approvalId.value].requestedBy;
    hide AllContributors, Contributors;
    forall who: Name
      ensures DecideDraft(s, Ctx(tenant, who), id, grant, now).1.Done? <==> who !in read && who != requester
    {}
    if forall who: Name :: DecideDraft(s, Ctx(tenant, who), id, grant, now).1.Done? ==> who !in all {
      forall who | who in all ensures who in read + {requester} {
        NamesOnly(s, tenant, id, who);
        var name: Name := who;
        assert !DecideDraft(s, Ctx(tenant, name), id, grant, now).1.Done?;
      }
    }
  }

  lemma NamesOnly(s: State, tenant: Name, id: Id, who: string)
    requires id in s.drafts && who in AllContributors(s, tenant, id)
    ensures who != ""
  {}

  /** While a draft has at most 10,000 events, the limited read is the complete one. */
  lemma LimitNotReached(s: State, tenant: Name, id: Id)
    requires id in s.drafts && |DraftEvents(s.events, tenant, id)| <= 10_000
    ensures Contributors(s, tenant, id) == AllContributors(s, tenant, id)
  {}

  lemma {:induction false} RunExtends(env: Env, s: State, ops: seq<Op>)
    requires Inv(env, s)
    ensures s.events <= Run(env, s, ops).events
    ensures forall x :: x in s.drafts ==>
      x in Run(env, s, ops).drafts && Run(env, s, ops).drafts[x].tenant == s.drafts[x].tenant
    decreases |ops|
  {
    assert IdsOk(s);
    hide Inv, Step;
    if ops != [] {
      StepGrows(env, s, ops[0]);
      StepKeeps(env, s, ops[0]);
      RunExtends(env, Step(env, s, ops[0]), ops[1..]);
    }
  }

  lemma {:induction false} RunSplits(env: Env, s: State, a: seq<Op>, b: seq<Op>)
    ensures Run(env, s, a + b) == Run(env, Run(env, s, a), b)
    decreases |a|
  {
    hide Step;
    if a == [] {
      assert a + b == b;
    } else {
      assert (a + b)[1..] == a[1..] + b;
      RunSplits(env, Step(env, s, a[0]), a[1..], b);
    }
  }

  lemma {:induction false} DraftEventsContains(events: seq<Event>, tenant: Name, x: Id, e: Event)
    requires e in events && ConcernsDraft(e, tenant, x)
    ensures e in DraftEvents(events, tenant, x)
  {
    if e != events[|events| - 1] {
      DraftEventsContains(events[..|events| - 1], tenant, x, e);
    }
  }

  /** An event of the run stays in the ledger: what a step appended first is there at the end. */
  lemma StepIsRemembered(env: Env, before: seq<Op>, after: seq<Op>, op: Op, e: Event)
    requires var s0 := Run(env, EMPTY, before);
             |Step(env, s0, op).events| > |s0.events| && Step(env, s0, op).events[|s0.events|] == e
    ensures var s0, s := Run(env, EMPTY, before), Run(env, EMPTY, before + [op] + after);
            && e in s.events
            && forall x :: x in Step(env, s0, op).drafts ==>
                 x in s.drafts && s.drafts[x].tenant == Step(env, s0, op).drafts[x].tenant
  {
    hide Inv, Step;
    var s0 := Run(env, EMPTY, before);
    Reachable(env, before);
    StepKeeps(env, s0, op);
    var s1 := Step(env, s0, op);
    RunExtends(env, s1, after);
    assert before + [op] + after == before + ([op] + after);
    RunSplits(env, EMPTY, before, [op] + after);
    assert ([op] + after)[1..] == after;
    assert Run(env, s1, after).events[|s0.events|] == e;
  }

  /** Creating a draft makes the actor a contributor for good, whoever is put down as its author. */
  lemma CreatorsAreRemembered(env: Env, before: seq<Op>, after: seq<Op>, ctx: Ctx, input: NewDraft, now: int)
    requires CreateDraft(Run(env, EMPTY, before), ctx, input, now).1.Done?
    ensures var x := Run(env, EMPTY, before).nextId;
            var s := Run(env, EMPTY, before + [Create(ctx, input, now)] + after);
            x in s.drafts && ctx.actor in AllContributors(s, ctx.tenant, x) && s.drafts[x].tenant == ctx.tenant
  {
    var x := Run(env, EMPTY, before).nextId;
    var e := Event(ctx.tenant, ctx.actor, DraftCreated, Some(x), None, now);
    StepIsRemembered(env, before, after, Create(ctx, input, now), e);
    hide Run;
    DraftEventsContains(Run(env, EMPTY, before + [Create(ctx, input, now)] + after).events, ctx.tenant, x, e);
  }

  /** An edit in the run makes its actor a contributor for good. */
  lemma EditorsAreRemembered(env: Env, before: seq<Op>, after: seq<Op>, ctx: Ctx, x: Id, c: Changes, now: int)
    requires UpdateDraft(Run(env, EMPTY, before), ctx, x, c, now).1.Done?
    ensures var s := Run(env, EMPTY, before + [Update(ctx, x, c, now)] + after);
            x in s.drafts && ctx.actor in AllContributors(s, ctx.tenant, x) && s.drafts[x].tenant == ctx.tenant
  {
    var e := Event(ctx.tenant, ctx.actor, DraftUpdated, Some(x), None, now);
    StepIsRemembered(env, before, after, Update(ctx, x, c, now), e);
    hide Run;
    DraftEventsContains(Run(env, EMPTY, before + [Update(ctx, x, c, now)] + after).events, ctx.tenant, x, e);
  }

  /**
    Nobody who ever created or edited a draft with at most 10,000 events is the one who approved its publication;
    by the two lemmas above that is everyone who performed a create or an update on it in the run.
   */
  lemma FourEyesOverRuns(env: Env, ops: seq<Op>, x: Id)
    requires var s := Run(env, EMPTY, ops);
             && x in s.drafts && s.drafts[x].status == Published && s.drafts[x].approvalId.Some?
             && |DraftEvents(s.events, s.drafts[x].tenant, x)| <= 10_000
    ensures var s := Run(env, EMPTY, ops);
            var k := s.drafts[x].approvalId.value;
            && k in s.approvals && s.approvals[k].decidedBy.Some?
            && s.approvals[k].decidedBy.value !in AllContributors(s, s.drafts[x].tenant, x)
  {
    hide Run, Inv, Contributors, AllContributors, DraftEvents, PayloadOf;
    var s := Run(env, EMPTY, ops);
    Reachable(env, ops);
    LimitNotReached(s, s.drafts[x].tenant, x);
    LinkFacts(env, s, x);
  }

  // ---------- conservation of approvals ----------

  /** Consumed approvals and published drafts that carry one are in bijection through the draft's approval id. */
  lemma ConsumptionIsConserved(env: Env, ops: seq<Op>)
    ensures var s := Run(env, EMPTY, ops);
            && (forall k :: k in s.approvals && s.approvals[k].status == Consumed ==>
                  s.approvals[k].draft in s.drafts
                  && s.drafts[s.approvals[k].draft].status == Published
                  && s.drafts[s.approvals[k].draft].approvalId == Some(k))
            && (forall x :: x in s.drafts && s.drafts[x].status == Published && s.drafts[x].approvalId.Some? ==>
                  s.drafts[x].approvalId.value in s.approvals
                  && s.approvals[s.drafts[x].approvalId.value].status == Consumed
                  && s.approvals[s.drafts[x].approvalId.value].draft == x)
  {
    hide Run, DraftsOk, PublicationsOk, SlugsUnique, PayloadOf, Contributors;
    Reachable(env, ops);
    var s := Run(env, EMPTY, ops);
    forall k | k in s.approvals ensures ApprovalOk(s, k) {}
    forall x | x in s.drafts && s.drafts[x].status == Published && s.drafts[x].approvalId.Some?
      ensures s.drafts[x].approvalId.value in s.approvals
      ensures s.approvals[s.drafts[x].approvalId.value].status == Consumed
      ensures s.approvals[s.drafts[x].approvalId.value].draft == x
    {
      LinkFacts(env, s, x);
    }
  }

  /** A draft has one published row if it is published and none otherwise; that row carries the published text. */
  lemma OneLiveRow(env: Env, ops: seq<Op>, x: Id)
    requires x in Run(env, EMPTY, ops).drafts
    ensures var s := Run(env, EMPTY, ops);
            var d := s.drafts[x];
            && |LiveRows(s, x)| == (if d.status == Published then 1 else 0)
            && (forall p :: p in LiveRows(s, x) ==>
                  s.publications[p].sentBody == d.body && s.publications[p].contentHash == env.sha(d.body))
  {
    hide Run, DraftsOk, ApprovalsOk, SlugsUnique;
    Reachable(env, ops);
    var s := Run(env, EMPTY, ops);
    forall p | p in LiveRows(s, x) ensures RowOk(env, s, p) {}
  }

  /** An approval its draft no longer points to; approval and draft ids are below the next fresh one. */
  predicate IsDropped(s: State, k: Id) {
    && k in s.approvals
    && k < s.nextId
    && s.approvals[k].draft in s.drafts
    && s.approvals[k].draft < s.nextId
    && s.drafts[s.approvals[k].draft].approvalId != Some(k)
  }

  lemma GrowsKeepsDropped(s: State, t: State, k: Id)
    requires Grows(s, t) && IsDropped(s, k)
    ensures IsDropped(t, k)
  {}

  lemma DroppedIsNotConsumed(s: State, k: Id)
    requires ApprovalsOk(s) && IsDropped(s, k)
    ensures s.approvals[k].status != Consumed
  {
    assert ApprovalOk(s, k);
  }

  /** An approval dropped by an edit or a re-verification is never consumed, whatever happens later. */
  lemma {:induction false} DroppedIsNeverConsumed(env: Env, s: State, ops: seq<Op>, k: Id)
    requires Inv(env, s) && IsDropped(s, k)
    ensures k in Run(env, s, ops).approvals && Run(env, s, ops).approvals[k].status != Consumed
    decreases |ops|
  {
    hide DraftsOk, ApprovalsOk, PublicationsOk, SlugsUnique, IdsOk, Step;
    if ops == [] {
      DroppedIsNotConsumed(s, k);
    } else {
      StepKeeps(env, s, ops[0]);
      StepGrows(env, s, ops[0]);
      GrowsKeepsDropped(s, Step(env, s, ops[0]), k);
      DroppedIsNeverConsumed(env, Step(env, s, ops[0]), ops[1..], k);
    }
  }

  /** The operation edits or re-verifies draft `x`, and succeeds. */
  predicate Voids(env: Env, s: State, op: Op, x: Id) {
    match op
    case Update(ctx, id, changes, now) => id == x && UpdateDraft(s, ctx, id, changes, now).1.Done?
    case Verify(ctx, id, now) => id == x && VerifyDraft(s, env, ctx, id, now).1.Done?
    case _ => false
  }

  lemma VoidingDrops(env: Env, s: State, op: Op, x: Id, k: Id)
    requires Inv(env, s) && x in s.drafts && s.drafts[x].approvalId == Some(k) && Voids(env, s, op, x)
    ensures IsDropped(Step(env, s, op), k)
  {
    hide Inv, Contributors, PayloadOf, StatusesAgree, GateDraft, DecideDraft, PublishDraft, CreateDraft,
      ExpireApprovals;
    LinkFacts(env, s, x);
    InvIds(env, s);
  }

  lemma InvIds(env: Env, s: State)
    requires Inv(env, s)
    ensures IdsOk(s)
  {}

  /** An edit or a re-verification ends the approval the draft had: it is never consumed in any continuation. */
  lemma VoidedIsNeverConsumed(env: Env, before: seq<Op>, op: Op, after: seq<Op>, x: Id, k: Id)
    requires var s := Run(env, EMPTY, before);
             x in s.drafts && s.drafts[x].approvalId == Some(k) && Voids(env, s, op, x)
    ensures var t := Run(env, EMPTY, before + [op] + after);
            k in t.approvals && t.approvals[k].status != Consumed && ConsumedAt(t.events, k) == []
  {
    hide Inv, Step, Voids;
    var s := Run(env, EMPTY, before);
    Reachable(env, before);
    VoidingDrops(env, s, op, x, k);
    StepKeeps(env, s, op);
    DroppedIsNeverConsumed(env, Step(env, s, op), after, k);
    assert before + [op] + after == before + ([op] + after);
    RunSplits(env, EMPTY, before, [op] + after);
    assert ([op] + after)[1..] == after;
    var t := Run(env, EMPTY, before + [op] + after);
    Reachable(env, before + [op] + after);
    UnconsumedHasNoEvent(env, t, k);
  }

  lemma UnconsumedHasNoEvent(env: Env, s: State, k: Id)
    requires Inv(env, s) && k in s.approvals && s.approvals[k].status != Consumed
    ensures ConsumedAt(s.events, k) == []
  {
    assert ApprovalOk(s, k);
  }

  /** Rejected, expired and consumed approvals are never touched again. */
  lemma {:induction false} FinalIsAbsorbing(env: Env, s: State, ops: seq<Op>, k: Id)
    requires k in s.approvals && k < s.nextId && IsFinal(s.approvals[k].status)
    ensures k in Run(env, s, ops).approvals && Run(env, s, ops).approvals[k] == s.approvals[k]
    decreases |ops|
  {
    hide Step;
    if ops != [] {
      StepGrows(env, s, ops[0]);
      FinalIsAbsorbing(env, Step(env, s, ops[0]), ops[1..], k);
    }
  }

  /** Published drafts are immutable. */
  lemma {:induction false} PublishedIsImmutable(env: Env, s: State, ops: seq<Op>, x: Id)
    requires x in s.drafts && x < s.nextId && s.drafts[x].status == Published
    ensures x in Run(env, s, ops).drafts && Run(env, s, ops).drafts[x] == s.drafts[x]
    decreases |ops|
  {
    hide Step;
    if ops != [] {
      StepGrows(env, s, ops[0]);
      PublishedIsImmutable(env, Step(env, s, ops[0]), ops[1..], x);
    }
  }

  /** A failed adapter call burns nothing: draft and approval rows are as before, and a retry in time succeeds. */
  lemma FailedPublishIsRetryable(env: Env, ops: seq<Op>, ctx: Ctx, id: Id, target: string, editorial: Editorial,
                                 start: int, finish: int, again: int, done: int)
    requires var s := Run(env, EMPTY, ops);
             && PublishDraft(s, env, ctx, id, target, editorial, start, false, finish).1 == Threw(AdapterFailed)
             && (s.drafts[id].approvalId.Some? ==>
                   again - s.approvals[s.drafts[id].approvalId.value].requestedAt <= VALIDITY
                   && done - s.approvals[s.drafts[id].approvalId.value].requestedAt <= VALIDITY)
    ensures var s := Run(env, EMPTY, ops);
            var t := PublishDraft(s, env, ctx, id, target, editorial, start, false, finish).0;
            && t.drafts == s.drafts && t.approvals == s.approvals
            && PublishDraft(t, env, ctx, id, target, editorial, again, true, done).1.Done?
  {
    hide ManifestFor, PayloadOf;
  }

  /** All the checks `publish` makes before it calls the adapter. */
  predicate StartChecksPass(s: State, env: Env, ctx: Ctx, id: Id, target: string, editorial: Editorial, start: int) {
    && HasDraft(s, ctx.tenant, id) && s.drafts[id].status == Approved
    && target in env.targets && !MarkingMissing(env, s.drafts[id]) && !editorial.blank
    && (s.drafts[id].approvalId.Some? ==>
          var hash := env.fingerprint(PayloadOf(env, id, s.drafts[id]));
          AssertValid(s, ctx.tenant, s.drafts[id].approvalId.value, hash, start).1.None?)
  }

  /**
    Once the adapter has published, the publication is recorded exactly when there was no approval or it has not
    lapsed in the meantime. Otherwise the text is out, the row stays in flight and the approval is expired.
   */
  lemma PublishedOutsideIsRecorded(s: State, env: Env, ctx: Ctx, id: Id, target: string, editorial: Editorial,
                                   start: int, finish: int)
    requires StartChecksPass(s, env, ctx, id, target, editorial, start)
    ensures var d := s.drafts[id];
            var (t, outcome) := PublishDraft(s, env, ctx, id, target, editorial, start, true, finish);
            && (outcome.Done? <==>
                  d.approvalId.None? || finish - s.approvals[d.approvalId.value].requestedAt <= VALIDITY)
            && s.nextId in t.publications && t.publications[s.nextId].sentBody == d.body
            && t.publications[s.nextId].status == (if outcome.Done? then Live else InFlight)
            && id in t.drafts && t.drafts[id].status == (if outcome.Done? then Published else Approved)
            && (!outcome.Done? ==>
                  outcome == Threw(ApprovalRequired) && t.approvals[d.approvalId.value].status == Expired)
  {
    hide ManifestFor, PayloadOf, MarkingMissing;
  }

  // ---------- facts on record ----------

  /**
    Past `draft`, the stored verification is that of the present text; a stored gate is the policy's decision on it.
   */
  lemma RecordsAreCurrent(env: Env, ops: seq<Op>, x: Id)
    requires x in Run(env, EMPTY, ops).drafts && Run(env, EMPTY, ops).drafts[x].status != Drafting
    ensures var d := Run(env, EMPTY, ops).drafts[x];
            && d.verification == Some(env.verifyDraft(d.body, d.evidence))
            && (d.gate.Some? ==> d.gate.value == Decide(env.policy, FactsOf(d)))
            && (d.gate.Some? <==> d.status != Verified)
            && (d.status == BlockedByPolicy <==> d.gate.Some? && d.gate.value.effect == Deny)
  {
    Reachable(env, ops);
    assert DraftOk(env, Run(env, EMPTY, ops), x);
  }

  /** With claim blocking on, no published text has an unsupported claim or a placeholder. */
  lemma PublishedIsSupported(env: Env, ops: seq<Op>, x: Id)
    requires env.policy.blockUnsupportedClaims
    requires x in Run(env, EMPTY, ops).drafts && Run(env, EMPTY, ops).drafts[x].status == Published
    ensures var d := Run(env, EMPTY, ops).drafts[x];
            env.verifyDraft(d.body, d.evidence).unsupported == 0
              && env.verifyDraft(d.body, d.evidence).placeholders == 0
  {
    RecordsAreCurrent(env, ops, x);
    Reachable(env, ops);
    assert DraftOk(env, Run(env, EMPTY, ops), x);
  }

  /**
    Where the gate required marking, the live row carries a manifest of the published body naming the recorded
    approver.
   */
  lemma PublishedIsMarked(env: Env, ops: seq<Op>, x: Id, p: Id)
    requires var s := Run(env, EMPTY, ops);
             x in s.drafts && s.drafts[x].gate.Some? && s.drafts[x].gate.value.requiresMarking && p in LiveRows(s, x)
    ensures var s := Run(env, EMPTY, ops);
            var d := s.drafts[x];
            && s.publications[p].manifest.Some?
            && var m := s.publications[p].manifest.value;
            && m.contentHash == env.sha(d.body)
            && m.aiAssisted
            && m.approvalId == d.approvalId
            && (d.approvalId.Some? ==>
                d.approvalId.value in s.approvals && m.approvedBy == s.approvals[d.approvalId.value].decidedBy)
            && (d.approvalId.None? ==> m.approvedBy.None?)
  {
    Reachable(env, ops);
    var s := Run(env, EMPTY, ops);
    assert RowOk(env, s, p);
    assert DraftOk(env, s, x);
    if s.drafts[x].approvalId.Some? {
      LinkFacts(env, s, x);
    }
  }

  // ---------- retention ----------

  /**
    The bulk expiry of the retention job and the expiry each access makes agree: having run the job first changes
    neither the answer to a decision or a consumption nor what becomes of the approval.
   */
  lemma RetentionChangesNoAnswer(s: State, job: Ctx, ctx: Ctx, k: Id, grant: bool, excluded: set<string>,
                                 hash: string, now: int)
    requires job.tenant == ctx.tenant
    ensures var t := ExpireApprovals(s, job, now);
            && DecideApproval(t, ctx, k, grant, excluded, now).1 == DecideApproval(s, ctx, k, grant, excluded, now).1
            && ConsumeApproval(t, ctx, k, hash, now).1 == ConsumeApproval(s, ctx, k, hash, now).1
            && (HasApproval(s, ctx.tenant, k) ==>
                  && k in t.approvals
                  && DecideApproval(t, ctx, k, grant, excluded, now).0.approvals[k]
                       == DecideApproval(s, ctx, k, grant, excluded, now).0.approvals[k]
                  && ConsumeApproval(t, ctx, k, hash, now).0.approvals[k]
                       == ConsumeApproval(s, ctx, k, hash, now).0.approvals[k])
  {
    var t := ExpireApprovals(s, job, now);
    assert HasApproval(t, ctx.tenant, k) == HasApproval(s, ctx.tenant, k);
  }
}
