/**
  Promises the pipeline keeps only under a condition, each with a run in which it is broken.
 */
module PipelineLimits {
  import opened Basics
  import opened PublicationPolicy
  import opened PipelineModel
  import opened PipelineInvariant
  import opened PipelineTheorems

  // ---------- four eyes on a very long history ----------

  const POLICY := Policy(false, true, 0.0, false, 0.0, {}, true, true, true, 0.0, {})

  const ENV := Env(POLICY, (body: string, evidence: seq<string>) => Report(1.0, 0, 0), (d: Draft) => 100.0,
                   (text: string) => text, (p: Payload) => p.bodyHash, {"site"}, true)

  const ALICE := Ctx("acme", "alice")
  const BOB := Ctx("acme", "bob")

  const INPUT := NewDraft("Title", "title", "Body", None, true, [], [], [], None)

  function Verifies(n: nat): seq<Op> {
    if n == 0 then [] else [Verify(ALICE, 0, 0)] + Verifies(n - 1)
  }

  /** One draft of Alice's, no approvals yet, and `n` events, all hers and all about that draft. */
  predicate AlicesDraft(s: State, n: nat) {
    && s.drafts.Keys == {0}
    && s.drafts[0].tenant == ALICE.tenant && s.drafts[0].author == ALICE.actor && s.drafts[0].aiAssisted
    && s.drafts[0].status in {Drafting, Verified} && s.drafts[0].slug == "title"
    && s.drafts[0].topics == [] && s.drafts[0].sourceKinds == []
    && s.approvals == map[] && s.nextId == 1
    && |s.events| == n
    && forall e :: e in s.events ==> ConcernsDraft(e, ALICE.tenant, 0) && e.actor == ALICE.actor
  }

  lemma {:induction false} VerifiesOnly(s: State, m: nat, n: nat)
    requires AlicesDraft(s, m)
    ensures AlicesDraft(Run(ENV, s, Verifies(n)), m + n)
    decreases n
  {
    if n > 0 {
      var t := Step(ENV, s, Verify(ALICE, 0, 0));
      assert AlicesDraft(t, m + 1);
      VerifiesOnly(t, m + 1, n - 1);
      assert Verifies(n)[1..] == Verifies(n - 1);
    }
  }

  lemma {:induction false} AllConcern(events: seq<Event>, tenant: Name, x: Id)
    requires forall e :: e in events ==> ConcernsDraft(e, tenant, x)
    ensures DraftEvents(events, tenant, x) == events
  {
    hide ConcernsDraft;
    if events != [] {
      var n := |events| - 1;
      AllConcern(events[..n], tenant, x);
      assert ConcernsDraft(events[n], tenant, x);
      assert events == events[..n] + [events[n]];
    }
  }

  const BOBS_EDIT := Update(BOB, 0, Changes(None, Some("Bob's text"), None, None), 0)
  const ALICE_VERIFIES := Verify(ALICE, 0, 0)
  const ALICE_GATES := Gate(ALICE, 0, 0)
  const BOB_APPROVES := DecideOn(BOB, 0, true, 0)

  /** Create, `n` verifications, then Bob edits, Alice has the draft gated, and Bob approves it. */
  function LongRun(n: nat): seq<Op> {
    [Create(ALICE, INPUT, 0)] + Verifies(n) + [BOBS_EDIT, ALICE_VERIFIES, ALICE_GATES, BOB_APPROVES]
  }

  /** Bob's edit is event `n`, after Alice's; nothing has been asked of anyone yet. */
  predicate EditedByBob(t: State, base: seq<Event>, status: DraftStatus) {
    && t.drafts.Keys == {0}
    && t.drafts[0].tenant == ALICE.tenant && t.drafts[0].author == ALICE.actor && t.drafts[0].aiAssisted
    && t.drafts[0].status == status && t.drafts[0].topics == [] && t.drafts[0].sourceKinds == []
    && t.approvals == map[] && t.nextId == 1
    && base < t.events && t.events[|base|] == Event(BOB.tenant, BOB.actor, DraftUpdated, Some(0), None, 0)
    && forall e :: e in t.events ==> ConcernsDraft(e, ALICE.tenant, 0)
  }

  lemma BobEdits(s: State, n: nat)
    requires AlicesDraft(s, n)
    ensures EditedByBob(Step(ENV, s, BOBS_EDIT), s.events, Drafting)
    ensures |Step(ENV, s, BOBS_EDIT).events| == n + 1
  {}

  lemma AliceVerifies(s: State, base: seq<Event>)
    requires EditedByBob(s, base, Drafting)
    ensures EditedByBob(Step(ENV, s, ALICE_VERIFIES), base, Verified)
    ensures |Step(ENV, s, ALICE_VERIFIES).events| == |s.events| + 1
    ensures Step(ENV, s, ALICE_VERIFIES).drafts[0].verification == Some(Report(1.0, 0, 0))
  {}

  lemma AliceGates(s: State, base: seq<Event>)
    requires EditedByBob(s, base, Verified) && s.drafts[0].verification == Some(Report(1.0, 0, 0))
    ensures var t := Step(ENV, s, ALICE_GATES);
            && t.drafts.Keys == {0} && t.drafts[0].author == ALICE.actor && t.drafts[0].tenant == ALICE.tenant
            && t.drafts[0].status == AwaitingApproval && t.drafts[0].approvalId == Some(1)
            && t.approvals.Keys == {1} && t.approvals[1].tenant == ALICE.tenant && t.approvals[1].draft == 0
            && t.approvals[1].status == Pending && t.approvals[1].requestedBy == ALICE.actor
                 && t.approvals[1].requestedAt == 0
            && |t.events| == |s.events| + 2 && s.events < t.events
            && (forall e :: e in t.events ==> ConcernsDraft(e, ALICE.tenant, 0))
  {
    assert !Blocked(POLICY, FactsOf(s.drafts[0])) && NeedsApproval(POLICY, FactsOf(s.drafts[0]));
  }

  lemma AfterBobsEdit(s: State, n: nat)
    requires AlicesDraft(s, n)
    ensures var t := Step(ENV, Step(ENV, Step(ENV, s, BOBS_EDIT), ALICE_VERIFIES), ALICE_GATES);
            && t.drafts.Keys == {0} && t.drafts[0].author == ALICE.actor && t.drafts[0].tenant == ALICE.tenant
            && t.drafts[0].status == AwaitingApproval && t.drafts[0].approvalId == Some(1)
            && t.approvals.Keys == {1} && t.approvals[1].tenant == ALICE.tenant && t.approvals[1].draft == 0
            && t.approvals[1].status == Pending && t.approvals[1].requestedBy == ALICE.actor
                 && t.approvals[1].requestedAt == 0
            && |t.events| == n + 4 && t.events[..n] == s.events
            && t.events[n] == Event(BOB.tenant, BOB.actor, DraftUpdated, Some(0), None, 0)
            && (forall e :: e in t.events ==> ConcernsDraft(e, ALICE.tenant, 0))
  {
    hide Step, ConcernsDraft;
    var s1 := Step(ENV, s, BOBS_EDIT);
    var s2 := Step(ENV, s1, ALICE_VERIFIES);
    BobEdits(s, n);
    AliceVerifies(s1, s.events);
    AliceGates(s2, s.events);
  }

  lemma BobApproves(t: State, n: nat)
    requires t.drafts.Keys == {0} && t.drafts[0].author == ALICE.actor && t.drafts[0].tenant == ALICE.tenant
    requires t.drafts[0].status == AwaitingApproval && t.drafts[0].approvalId == Some(1)
    requires t.approvals.Keys == {1} && t.approvals[1].tenant == ALICE.tenant && t.approvals[1].draft == 0
    requires t.approvals[1].status == Pending && t.approvals[1].requestedBy == ALICE.actor
         && t.approvals[1].requestedAt == 0
    requires EVENT_LIMIT <= n && |t.events| == n + 4
    requires forall i :: 0 <= i < n ==> t.events[i].actor == ALICE.actor
    requires t.events[n] == Event(BOB.tenant, BOB.actor, DraftUpdated, Some(0), None, 0)
    requires forall e :: e in t.events ==> ConcernsDraft(e, ALICE.tenant, 0)
    ensures var u := Step(ENV, t, BOB_APPROVES);
            && 0 in u.drafts && u.drafts[0].status == Approved && u.drafts[0].reviewer == Some(BOB.actor)
            && BOB.actor in AllContributors(u, ALICE.tenant, 0)
  {
    AllConcern(t.events, ALICE.tenant, 0);
    assert BOB.actor !in Contributors(t, ALICE.tenant, 0);
    hide Contributors;
    var u := Step(ENV, t, BOB_APPROVES);
    assert u.drafts[0].status == Approved;
    assert u.events[n] == t.events[n];
    DraftEventsContains(u.events, ALICE.tenant, 0, t.events[n]);
  }

  /** Past 10,000 events a recent editor can approve the draft. */
  lemma LongHistoryDefeatsFourEyes(n: nat)
    requires n + 1 >= 10_000
    ensures var t := Run(ENV, EMPTY, LongRun(n));
            && 0 in t.drafts && t.drafts[0].status == Approved
            && t.drafts[0].reviewer == Some(BOB.actor) && BOB.actor in AllContributors(t, ALICE.tenant, 0)
  {
    var head, middle, tail := [Create(ALICE, INPUT, 0)], Verifies(n),
      [BOBS_EDIT, ALICE_VERIFIES, ALICE_GATES, BOB_APPROVES];
    hide Step, AllContributors, Verifies, ConcernsDraft;
    AliceCreates();
    RunOne(EMPTY, head[0]);
    var s := Step(ENV, EMPTY, head[0]);
    VerifiesOnly(s, 1, n);
    var t := Run(ENV, s, middle);
    AfterBobsEdit(t, n + 1);
    AliceWroteThem(t, n + 1);
    var u := Step(ENV, Step(ENV, Step(ENV, t, BOBS_EDIT), ALICE_VERIFIES), ALICE_GATES);
    assert forall i :: 0 <= i < n + 1 ==> u.events[i] == u.events[..n + 1][i];
    BobApproves(u, n + 1);
    RunFour(t, BOBS_EDIT, ALICE_VERIFIES, ALICE_GATES, BOB_APPROVES);
    RunSplits(ENV, EMPTY, head + middle, tail);
    RunSplits(ENV, EMPTY, head, middle);
  }

  lemma AliceWroteThem(s: State, n: nat)
    requires AlicesDraft(s, n)
    ensures |s.events| == n && forall i :: 0 <= i < n ==> s.events[i].actor == ALICE.actor
  {}

  lemma AliceCreates()
    ensures AlicesDraft(Step(ENV, EMPTY, Create(ALICE, INPUT, 0)), 1)
  {
    assert ValidSlug(INPUT.slug);
  }

  lemma RunOne(s: State, a: Op)
    ensures Run(ENV, s, [a]) == Step(ENV, s, a)
  {
    hide Step;
    assert [a][1..] == [];
  }

  lemma RunFour(s: State, a: Op, b: Op, c: Op, d: Op)
    ensures Run(ENV, s, [a, b, c, d]) == Step(ENV, Step(ENV, Step(ENV, Step(ENV, s, a), b), c), d)
  {
    hide Step;
    RunSplits(ENV, s, [a], [b, c, d]);
    RunSplits(ENV, Step(ENV, s, a), [b], [c, d]);
    RunSplits(ENV, Step(ENV, Step(ENV, s, a), b), [c], [d]);
    assert [a, b, c, d] == [a] + [b, c, d] && [b, c, d] == [b] + [c, d] && [c, d] == [c] + [d];
    RunOne(s, a);
    RunOne(Step(ENV, s, a), b);
    RunOne(Step(ENV, Step(ENV, s, a), b), c);
    RunOne(Step(ENV, Step(ENV, Step(ENV, s, a), b), c), d);
  }

  // ---------- who the publish event says approved ----------

  /**
    The publish event names the draft's last reviewer. That is the person who approved the publication exactly
    when the publication went through an approval or the draft never had a reviewer.
   */
  lemma PublishEventNamesApprover(env: Env, ops: seq<Op>, ctx: Ctx, id: Id, target: string, editorial: Editorial,
                                  start: int, finish: int)
    requires PublishDraft(Run(env, EMPTY, ops), env, ctx, id, target, editorial, start, true, finish).1.Done?
    ensures var s := Run(env, EMPTY, ops);
            var t := PublishDraft(s, env, ctx, id, target, editorial, start, true, finish).0;
            var k := s.drafts[id].approvalId;
            && |t.events| > 0
            && var e := t.events[|t.events| - 1];
            && e.action.DraftPublished? && e.draft == Some(id)
            && (k.Some? ==> k.value in t.approvals)
            && (e.action.approvedBy == (if k.Some? then t.approvals[k.value].decidedBy else None)
                <==> k.Some? || s.drafts[id].reviewer.None?)
  {
    hide Run, Inv, Contributors, PayloadOf, ManifestFor, MarkingMissing;
    var s := Run(env, EMPTY, ops);
    Reachable(env, ops);
    if s.drafts[id].approvalId.Some? {
      LinkFacts(env, s, id);
    }
  }

  const REJECTED: seq<Op> := [Create(ALICE, INPUT, 0), Verify(ALICE, 0, 0), Gate(ALICE, 0, 0),
                              DecideOn(BOB, 0, false, 0)]
  const REWORKED: seq<Op> :=
    [Update(ALICE, 0, Changes(None, None, None, Some(false)), 0), Verify(ALICE, 0, 0), Gate(ALICE, 0, 0),
     Publish(ALICE, 0, "site", Editorial("Alice", "Editor", false), 0, true, 0)]

  lemma GateAsksBob(s: State)
    requires AlicesDraft(s, 2) && s.drafts[0].status == Verified && s.drafts[0].verification == Some(Report(1.0, 0, 0))
    requires s.drafts[0].readinessSource == RenderedArtefact
    ensures var t := Step(ENV, s, Gate(ALICE, 0, 0));
            && t.drafts.Keys == {0}
            && t.drafts[0] == s.drafts[0].(status := AwaitingApproval, gate := t.drafts[0].gate, approvalId := Some(1))
            && t.approvals.Keys == {1} && t.approvals[1].tenant == ALICE.tenant && t.approvals[1].status == Pending
            && t.approvals[1].requestedBy == ALICE.actor && t.approvals[1].requestedAt == 0
            && t.approvals[1].payloadHash == s.drafts[0].body && t.nextId == 2
            && (forall e :: e in t.events ==> e.actor == ALICE.actor)
  {
    assert !Blocked(POLICY, FactsOf(s.drafts[0])) && NeedsApproval(POLICY, FactsOf(s.drafts[0]));
  }

  lemma {:induction false} OnlyTheirEvents(events: seq<Event>, tenant: Name, x: Id)
    ensures forall e :: e in DraftEvents(events, tenant, x) ==> e in events
  {
    if events != [] {
      OnlyTheirEvents(events[..|events| - 1], tenant, x);
    }
  }

  lemma BobRejects(s: State)
    requires s.drafts.Keys == {0} && s.drafts[0].tenant == ALICE.tenant && s.drafts[0].author == ALICE.actor
    requires s.drafts[0].status == AwaitingApproval && s.drafts[0].approvalId == Some(1)
    requires s.approvals.Keys == {1} && s.approvals[1].tenant == ALICE.tenant && s.approvals[1].status == Pending
    requires s.approvals[1].requestedBy == ALICE.actor && s.approvals[1].requestedAt == 0
    requires forall e :: e in s.events ==> e.actor == ALICE.actor
    ensures Step(ENV, s, DecideOn(BOB, 0, false, 0)).drafts
         == s.drafts[0 := s.drafts[0].(status := Rejected, reviewer := Some(BOB.actor))]
  {
    OnlyTheirEvents(s.events, ALICE.tenant, 0);
    assert BOB.actor !in Contributors(s, ALICE.tenant, 0);
    hide Contributors;
  }

  lemma Rejection()
    ensures var s := Step(ENV, Step(ENV, Step(ENV, Step(ENV, EMPTY, REJECTED[0]), REJECTED[1]), REJECTED[2]),
                          REJECTED[3]);
            && HasDraft(s, ALICE.tenant, 0) && s.drafts[0].status == Rejected && s.drafts[0].reviewer == Some(BOB.actor)
            && s.drafts[0].topics == [] && s.drafts[0].sourceKinds == []
                 && s.drafts[0].readinessSource == RenderedArtefact
  {
    AliceCreates();
    var s1 := Step(ENV, EMPTY, REJECTED[0]);
    assert s1.drafts[0].readinessSource == NoReadiness;
    var s2 := Step(ENV, s1, REJECTED[1]);
    assert AlicesDraft(s2, 2) && s2.drafts[0].verification == Some(Report(1.0, 0, 0));
    GateAsksBob(s2);
    BobRejects(Step(ENV, s2, REJECTED[2]));
  }

  lemma Rework(s: State)
    requires HasDraft(s, ALICE.tenant, 0) && s.drafts[0].status == Rejected && s.drafts[0].reviewer == Some(BOB.actor)
    requires s.drafts[0].topics == [] && s.drafts[0].sourceKinds == []
         && s.drafts[0].readinessSource == RenderedArtefact
    ensures var t := Step(ENV, Step(ENV, Step(ENV, Step(ENV, s, REWORKED[0]), REWORKED[1]), REWORKED[2]), REWORKED[3]);
            && 0 in t.drafts && t.drafts[0].status == Published && t.drafts[0].approvalId.None?
            && |t.events| > 0
            && t.events[|t.events| - 1].action == DraftPublished(t.drafts[0].body, Some(BOB.actor))
  {
    var s1 := Step(ENV, s, REWORKED[0]);
    var s2 := Step(ENV, s1, REWORKED[1]);
    assert s2.drafts[0].verification == Some(Report(1.0, 0, 0)) && !s2.drafts[0].aiAssisted;
    assert !Blocked(POLICY, FactsOf(s2.drafts[0]));
    assert !NeedsApproval(POLICY, FactsOf(s2.drafts[0])) by {
      assert s2.drafts[0].topics == [];
    }
    var s3 := Step(ENV, s2, REWORKED[2]);
    assert s3.drafts[0].status == Approved && s3.drafts[0].approvalId.None?;
  }

  /** Bob rejects; Alice reworks the text by hand so that no approval is needed; the event still names Bob. */
  lemma PublishEventNamesRejecter()
    ensures var t := Run(ENV, EMPTY, REJECTED + REWORKED);
            && 0 in t.drafts && t.drafts[0].status == Published && t.drafts[0].approvalId.None?
            && |t.events| > 0
            && t.events[|t.events| - 1].action == DraftPublished(t.drafts[0].body, Some(BOB.actor))
  {
    hide Step;
    RunSplits(ENV, EMPTY, REJECTED, REWORKED);
    RunFour(EMPTY, REJECTED[0], REJECTED[1], REJECTED[2], REJECTED[3]);
    RunFour(Run(ENV, EMPTY, REJECTED), REWORKED[0], REWORKED[1], REWORKED[2], REWORKED[3]);
    Rejection();
    Rework(Run(ENV, EMPTY, REJECTED));
  }

  // ---------- an approval that lapses while the adapter runs ----------

  const GRANTED: seq<Op> := [Create(ALICE, INPUT, 0), Verify(ALICE, 0, 0), Gate(ALICE, 0, 0), BOB_APPROVES]
  const EDITORIAL := Editorial("Alice", "Editor", false)
  const TOO_LATE := Publish(ALICE, 0, "site", EDITORIAL, 0, true, VALIDITY + 1)

  lemma BobGrants(s: State)
    requires s.drafts.Keys == {0} && s.drafts[0].tenant == ALICE.tenant && s.drafts[0].author == ALICE.actor
    requires s.drafts[0].status == AwaitingApproval && s.drafts[0].approvalId == Some(1)
    requires s.approvals.Keys == {1} && s.approvals[1].tenant == ALICE.tenant && s.approvals[1].status == Pending
    requires s.approvals[1].requestedBy == ALICE.actor && s.approvals[1].requestedAt == 0
    requires forall e :: e in s.events ==> e.actor == ALICE.actor
    ensures var t := Step(ENV, s, BOB_APPROVES);
            && t.drafts == s.drafts[0 := s.drafts[0].(status := Approved, reviewer := Some(BOB.actor))]
            && t.approvals == s.approvals[1 := s.approvals[1].(status := Granted, decidedBy := Some(BOB.actor))]
            && t.nextId == s.nextId
  {
    OnlyTheirEvents(s.events, ALICE.tenant, 0);
    assert BOB.actor !in Contributors(s, ALICE.tenant, 0);
    hide Contributors;
  }

  lemma Approval()
    ensures var s := Step(ENV, Step(ENV, Step(ENV, Step(ENV, EMPTY, GRANTED[0]), GRANTED[1]), GRANTED[2]), GRANTED[3]);
            && HasDraft(s, ALICE.tenant, 0) && s.drafts[0].status == Approved && s.drafts[0].approvalId == Some(1)
            && s.drafts[0].body == "Body" && s.nextId == 2
            && HasApproval(s, ALICE.tenant, 1) && s.approvals[1].status == Granted
            && s.approvals[1].requestedAt == 0 && s.approvals[1].payloadHash == "Body"
  {
    AliceCreates();
    var s1 := Step(ENV, EMPTY, GRANTED[0]);
    assert s1.drafts[0].readinessSource == NoReadiness && s1.drafts[0].body == "Body";
    var s2 := Step(ENV, s1, GRANTED[1]);
    assert AlicesDraft(s2, 2) && s2.drafts[0].verification == Some(Report(1.0, 0, 0)) && s2.drafts[0].body == "Body";
    GateAsksBob(s2);
    BobGrants(Step(ENV, s2, GRANTED[2]));
  }

  /** The adapter has published the approved text, but the approval has lapsed when it returns. */
  lemma PublishedOutsideStaysInFlight()
    ensures var t := Run(ENV, EMPTY, GRANTED + [TOO_LATE]);
            && 0 in t.drafts && t.drafts[0].status == Approved
            && 1 in t.approvals && t.approvals[1].status == Expired
            && 2 in t.publications && t.publications[2].status == InFlight && t.publications[2].sentBody == "Body"
  {
    hide Step;
    RunSplits(ENV, EMPTY, GRANTED, [TOO_LATE]);
    RunFour(EMPTY, GRANTED[0], GRANTED[1], GRANTED[2], GRANTED[3]);
    Approval();
    var s := Run(ENV, EMPTY, GRANTED);
    RunOne(s, TOO_LATE);
    PublishesTooLate(s);
  }

  lemma PublishesTooLate(s: State)
    requires HasDraft(s, ALICE.tenant, 0) && s.drafts[0].status == Approved && s.drafts[0].approvalId == Some(1)
    requires s.drafts[0].body == "Body" && s.nextId == 2
    requires HasApproval(s, ALICE.tenant, 1) && s.approvals[1].status == Granted
    requires s.approvals[1].requestedAt == 0 && s.approvals[1].payloadHash == "Body"
    ensures var t := Step(ENV, s, TOO_LATE);
            && 0 in t.drafts && t.drafts[0].status == Approved
            && 1 in t.approvals && t.approvals[1].status == Expired
            && 2 in t.publications && t.publications[2].status == InFlight && t.publications[2].sentBody == "Body"
  {
    assert ENV.fingerprint(PayloadOf(ENV, 0, s.drafts[0])) == "Body";
    PublishedOutsideIsRecorded(s, ENV, ALICE, 0, "site", EDITORIAL, 0, VALIDITY + 1);
  }
}
