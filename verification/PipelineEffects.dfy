/**
  What each operation of the pipeline does to the rows it is about, and where the rows of a run come from: every
  approval from a gate, every grant from a decision, every publication row from a publish that passed its checks.
 */
module PipelineEffects {
  import opened Basics
  import opened PublicationPolicy
  import opened PipelineModel
  import opened PipelineInvariant
  import opened PipelineTheorems

  /** Besides draft `id`, and with it possibly approvals and events, nothing changed. */
  predicate OnlyDraftRow(s: State, t: State, id: Id) {
    && t.drafts.Keys == s.drafts.Keys
    && (forall y :: y in s.drafts && y != id ==> t.drafts[y] == s.drafts[y])
    && t.publications == s.publications
  }

  /** Approval `k` of the tenant is granted for this payload and was requested at most 30 days before `now`. */
  predicate InForce(s: State, tenant: Name, k: Id, hash: string, now: int) {
    && k in s.approvals && s.approvals[k].tenant == tenant
    && s.approvals[k].status == Granted && s.approvals[k].payloadHash == hash
    && now - s.approvals[k].requestedAt <= 30 * 24 * 60 * 60 * 1000
  }

  // ---------- drafts ----------

  /** The slugs, built up by one character at a time. */
  lemma SlugsAreExact(slug: string, c: char)
    ensures !ValidSlug("")
    ensures ValidSlug([c]) <==> 'a' <= c <= 'z' || '0' <= c <= '9'
    ensures slug != [] ==>
      (ValidSlug(slug + [c]) <==>
         ValidSlug(slug) && |slug| < 121 && ('a' <= c <= 'z' || '0' <= c <= '9' || c == '-'))
  {
    if slug != [] {
      assert forall i :: 0 <= i < |slug| ==> (slug + [c])[i] == slug[i];
      assert (slug + [c])[|slug|] == c;
    }
  }

  /** A draft is created exactly under a proper slug the tenant does not use, from what was handed in. */
  lemma CreateStores(s: State, ctx: Ctx, input: NewDraft, now: int)
    ensures var (t, out) := CreateDraft(s, ctx, input, now);
            && (out.Done? <==>
                  ValidSlug(input.slug)
                  && forall x :: x in s.drafts && s.drafts[x].tenant == ctx.tenant ==> s.drafts[x].slug != input.slug)
            && (out.Threw? ==> t == s && out.error == if ValidSlug(input.slug) then SlugTaken else Validation)
            && (out.Done? ==>
                  && out.id == s.nextId && t.nextId > s.nextId && t.drafts.Keys == s.drafts.Keys + {s.nextId}
                  && (forall y :: y in s.drafts && y != s.nextId ==> t.drafts[y] == s.drafts[y])
                  && t.approvals == s.approvals && t.publications == s.publications
                  && t.events == s.events + [Event(ctx.tenant, ctx.actor, DraftCreated, Some(s.nextId), None, now)]
                  && var d := t.drafts[s.nextId];
                  && d.tenant == ctx.tenant && d.status == Drafting
                  && d.title == input.title && d.slug == input.slug && d.body == input.body
                  && (if input.author.Some? then d.author == input.author.value else d.author == ctx.actor)
                  && d.aiAssisted == input.aiAssisted && d.evidence == input.evidence
                  && d.topics == input.topics && d.sourceKinds == input.sourceKinds
                  && d.readiness == input.readiness && (d.readinessSource == TargetPage <==> input.readiness.Some?)
                  && (d.readinessSource == NoReadiness <==> input.readiness.None?)
                  && d.reviewer.None? && d.verification.None? && d.gate.None? && d.approvalId.None?
                  && d.publishedAt.None?)
  {
    hide ValidSlug;
  }

  /**
    An edit takes each value that was given and keeps the others; what was computed from the old text goes, and a
    readiness score stays exactly if it is a target page's.
   */
  lemma UpdateEdits(s: State, ctx: Ctx, id: Id, c: Changes, now: int)
    ensures var (t, out) := UpdateDraft(s, ctx, id, c, now);
            && (out.Done? <==> id in s.drafts && s.drafts[id].tenant == ctx.tenant && s.drafts[id].status != Published)
            && (out.Threw? ==>
                  t == s && out.error == if HasDraft(s, ctx.tenant, id) then Conflict else NotFound)
            && (out.Done? ==>
                  && out.id == id && OnlyDraftRow(s, t, id) && t.approvals == s.approvals
                  && t.events == s.events + [Event(ctx.tenant, ctx.actor, DraftUpdated, Some(id), None, now)]
                  && var d, d' := s.drafts[id], t.drafts[id];
                  && (match c.title case Some(title) => d'.title == title case None => d'.title == d.title)
                  && (match c.body case Some(body) => d'.body == body case None => d'.body == d.body)
                  && (match c.evidence case Some(e) => d'.evidence == e case None => d'.evidence == d.evidence)
                  && (match c.aiAssisted
                      case Some(ai) => d'.aiAssisted == ai
                      case None => d'.aiAssisted == d.aiAssisted)
                  && d'.tenant == d.tenant && d'.slug == d.slug && d'.author == d.author && d'.topics == d.topics
                  && d'.sourceKinds == d.sourceKinds && d'.reviewer == d.reviewer && d'.publishedAt == d.publishedAt
                  && (d.readinessSource == TargetPage ==>
                        d'.readiness == d.readiness && d'.readinessSource == TargetPage)
                  && (d.readinessSource != TargetPage ==> d'.readiness.None? && d'.readinessSource == NoReadiness)
                  && d'.status == Drafting && d'.verification.None? && d'.gate.None? && d'.approvalId.None?)
  {}

  /** Verification records the report on the present text, and scores the page unless a target page was scored. */
  lemma VerifyRecords(s: State, env: Env, ctx: Ctx, id: Id, now: int)
    ensures var (t, out) := VerifyDraft(s, env, ctx, id, now);
            && (out.Done? <==> id in s.drafts && s.drafts[id].tenant == ctx.tenant && s.drafts[id].status != Published)
            && (out.Threw? ==>
                  t == s && out.error == if HasDraft(s, ctx.tenant, id) then Conflict else NotFound)
            && (out.Done? ==>
                  && out.id == id && OnlyDraftRow(s, t, id) && t.approvals == s.approvals
                  && t.events == s.events + [Event(ctx.tenant, ctx.actor, DraftVerified, Some(id), None, now)]
                  && var d, d' := s.drafts[id], t.drafts[id];
                  && d'.status == Verified && d'.verification == Some(env.verifyDraft(d.body, d.evidence))
                  && (d.readinessSource == TargetPage ==>
                        d'.readiness == d.readiness && d'.readinessSource == TargetPage)
                  && (d.readinessSource != TargetPage ==>
                        d'.readiness == Some(env.readiness(d)) && d'.readinessSource == RenderedArtefact)
                  && d'.gate.None? && d'.approvalId.None?
                  && d'.title == d.title && d'.body == d.body && d'.evidence == d.evidence
                  && d'.aiAssisted == d.aiAssisted && d'.tenant == d.tenant && d'.slug == d.slug
                  && d'.author == d.author && d'.topics == d.topics && d'.sourceKinds == d.sourceKinds
                  && d'.reviewer == d.reviewer && d'.publishedAt == d.publishedAt)
  {}

  // ---------- gate and decision ----------

  /** What blocks a verified draft, read off the policy and the draft. */
  predicate BlocksDraft(p: Policy, d: Draft, v: Report) {
    || (p.blockUnsupportedClaims && (v.unsupported > 0 || v.placeholders > 0))
    || v.coverage < p.blockCoverageBelow
    || exists kind :: kind in d.sourceKinds && kind in p.prohibitedSourceKinds
  }

  /** What sends a verified draft to a human, read off the policy and the draft. */
  predicate AsksForDraft(p: Policy, d: Draft, v: Report) {
    || p.always
    || (p.approveAiAssisted && d.aiAssisted)
    || (d.readiness.None? && p.readinessUnknown)
    || (d.readiness.Some? && d.readiness.value < p.readinessBelow)
    || v.coverage < p.approveCoverageBelow
    || exists topic :: topic in d.topics && topic in p.topics
  }

  lemma GateOutcome(s: State, env: Env, ctx: Ctx, id: Id, now: int)
    requires HasDraft(s, ctx.tenant, id) && s.drafts[id].status == Verified && s.drafts[id].verification.Some?
    ensures var d := s.drafts[id];
            var decision := Decide(env.policy, FactsOf(d));
            && (decision.effect == Deny <==> BlocksDraft(env.policy, d, d.verification.value))
            && (decision.effect == RequireApproval <==>
                  !BlocksDraft(env.policy, d, d.verification.value)
                  && AsksForDraft(env.policy, d, d.verification.value))
            && (decision.requiresDisclosure <==> d.aiAssisted && env.policy.disclosureWhenAiAssisted)
            && (decision.requiresMarking <==>
                  d.aiAssisted && env.policy.disclosureWhenAiAssisted && env.policy.machineReadableMarking)
  {
    hide Decide;
  }

  /**
    The gate blocks, asks or approves as the policy says of the draft's own columns, requires marking exactly for
    AI-assisted text under a policy that wants it, and asks for an approval of the present payload exactly when it
    sends the draft to a human.
   */
  lemma GateActs(s: State, env: Env, ctx: Ctx, id: Id, now: int)
    ensures var (t, out) := GateDraft(s, env, ctx, id, now);
            && (out.Done? <==>
                  HasDraft(s, ctx.tenant, id) && s.drafts[id].status == Verified && s.drafts[id].verification.Some?)
            && (out.Threw? ==>
                  t == s && out.error == if HasDraft(s, ctx.tenant, id) then Conflict else NotFound)
            && (out.Done? ==>
                  && out.id == id && OnlyDraftRow(s, t, id)
                  && var d, d' := s.drafts[id], t.drafts[id];
                  var blocks := BlocksDraft(env.policy, d, d.verification.value);
                  var asks := AsksForDraft(env.policy, d, d.verification.value);
                  && d'.status == (if blocks then BlockedByPolicy else if asks then AwaitingApproval else Approved)
                  && d'.gate.Some?
                  && (d'.gate.value.requiresMarking <==>
                        d.aiAssisted && env.policy.disclosureWhenAiAssisted && env.policy.machineReadableMarking)
                  && (d'.gate.value.requiresDisclosure <==> d.aiAssisted && env.policy.disclosureWhenAiAssisted)
                  && d' == d.(status := d'.status, gate := d'.gate, approvalId := d'.approvalId)
                  && (blocks || !asks ==>
                        d'.approvalId.None? && t.approvals == s.approvals && |t.events| == |s.events| + 1)
                  && (!blocks && asks ==>
                        && d'.approvalId == Some(s.nextId) && t.nextId > s.nextId
                        && t.approvals.Keys == s.approvals.Keys + {s.nextId}
                        && (forall k :: k in s.approvals && k != s.nextId ==> t.approvals[k] == s.approvals[k])
                        && Requested(env, ctx, id, d, now, t.approvals[s.nextId])
                        && t.events[..|s.events|] == s.events && |t.events| == |s.events| + 2
                        && var asked := t.events[|s.events|];
                        && asked.action == ApprovalRequested(t.approvals[s.nextId].payloadHash)
                        && asked.tenant == ctx.tenant && asked.actor == ctx.actor && asked.draft == Some(id)
                        && asked.approvalId == Some(s.nextId) && asked.at == now)
                  && var e := t.events[|t.events| - 1];
                  && e.action == DraftGated(d'.gate.value.effect) && e.draft == Some(id)
                  && e.tenant == ctx.tenant && e.actor == ctx.actor && e.approvalId == d'.approvalId && e.at == now)
  {
    hide Decide, FactsOf, BlocksDraft, AsksForDraft;
    if GateDraft(s, env, ctx, id, now).1.Done? {
      GateOutcome(s, env, ctx, id, now);
    }
  }

  /** A fresh request: pending, by this actor, at this moment, for the payload draft `d` has. */
  predicate Requested(env: Env, ctx: Ctx, id: Id, d: Draft, now: int, a: Approval) {
    && a.tenant == ctx.tenant && a.draft == id && a.requestedBy == ctx.actor && a.requestedAt == now
    && a.status == Pending && a.decidedBy.None?
    && a.payloadHash == env.fingerprint(Payload(id, env.sha(d.body), d.title, d.slug, d.aiAssisted))
  }

  /** What it takes for `who` to decide draft `id` at `now`. */
  predicate CanDecide(s: State, ctx: Ctx, id: Id, now: int) {
    && HasDraft(s, ctx.tenant, id) && s.drafts[id].status == AwaitingApproval && s.drafts[id].approvalId.Some?
    && var k := s.drafts[id].approvalId.value;
    && k in s.approvals && s.approvals[k].tenant == ctx.tenant && s.approvals[k].status == Pending
    && now - s.approvals[k].requestedAt <= 30 * 24 * 60 * 60 * 1000
    && ctx.actor != s.approvals[k].requestedBy && ctx.actor !in Contributors(s, ctx.tenant, id)
  }

  /**
    A decision goes through exactly for a pending request in time and an outsider; a grant approves and a refusal
    rejects, in the draft and in the approval, and both name the one who decided.
   */
  lemma DecisionActs(s: State, ctx: Ctx, id: Id, grant: bool, now: int)
    ensures var (t, out) := DecideDraft(s, ctx, id, grant, now);
            && (out.Done? <==> CanDecide(s, ctx, id, now))
            && (out.Threw? ==> t.drafts == s.drafts && t.publications == s.publications && t.events == s.events)
            && (out.Done? ==>
                  && out.id == id && OnlyDraftRow(s, t, id)
                  && var d, d' := s.drafts[id], t.drafts[id];
                  var k := d.approvalId.value;
                  && d' == d.(status := d'.status, reviewer := d'.reviewer)
                  && d'.reviewer == Some(ctx.actor) && d'.status == (if grant then Approved else Rejected)
                  && t.approvals.Keys == s.approvals.Keys
                  && (forall j :: j in s.approvals && j != k ==> t.approvals[j] == s.approvals[j])
                  && t.approvals[k] == s.approvals[k].(status := t.approvals[k].status,
                                                       decidedBy := t.approvals[k].decidedBy)
                  && t.approvals[k].decidedBy == Some(ctx.actor)
                  && t.approvals[k].status == (if grant then Granted else Refused)
                  && var about := Some(s.approvals[k].draft);
                  t.events == s.events
                       + [Event(ctx.tenant, ctx.actor, ApprovalDecided(grant), about, Some(k), now),
                          Event(ctx.tenant, ctx.actor, DraftDecided(grant), Some(id), Some(k), now)])
  {
    hide Contributors;
  }

  /** Whoever decides a draft is not its author, nor the actor of a create or update among its first 10,000 events. */
  lemma DeciderIsOutsider(s: State, ctx: Ctx, id: Id, grant: bool, now: int)
    requires DecideDraft(s, ctx, id, grant, now).1.Done?
    ensures var events := DraftEvents(s.events, ctx.tenant, id);
            && id in s.drafts && ctx.actor != s.drafts[id].author
            && forall i :: 0 <= i < |events| && i < 10_000 && events[i].action in {DraftCreated, DraftUpdated} ==>
                 events[i].actor != ctx.actor
  {
    hide DecideDraft, DraftEvents, CanDecide;
    DecisionActs(s, ctx, id, grant, now);
    var events := DraftEvents(s.events, ctx.tenant, id);
    assert ctx.actor !in Contributors(s, ctx.tenant, id) by { Decidable(s, ctx, id, now); }
    assert id in s.drafts by { Decidable(s, ctx, id, now); }
    forall i | 0 <= i < |events| && i < 10_000 && events[i].action in {DraftCreated, DraftUpdated}
      ensures events[i].actor != ctx.actor
    {
      assert First(EVENT_LIMIT, events)[i] == events[i];
    }
  }

  lemma Decidable(s: State, ctx: Ctx, id: Id, now: int)
    requires CanDecide(s, ctx, id, now)
    ensures id in s.drafts && ctx.actor !in Contributors(s, ctx.tenant, id)
  {}

  /** Why a decision is refused, and that a refusal at most expires the draft's own approval, when that is due. */
  lemma RefusedDecision(s: State, ctx: Ctx, id: Id, grant: bool, now: int)
    requires DecideDraft(s, ctx, id, grant, now).1.Threw?
    ensures var (t, out) := DecideDraft(s, ctx, id, grant, now);
            && t.approvals.Keys == s.approvals.Keys
            && (forall j :: j in s.approvals && t.approvals[j] != s.approvals[j] ==>
                  && HasDraft(s, ctx.tenant, id) && s.drafts[id].approvalId == Some(j)
                  && s.approvals[j].status in {Pending, Granted}
                  && now - s.approvals[j].requestedAt > 30 * 24 * 60 * 60 * 1000
                  && t.approvals[j] == s.approvals[j].(status := Expired))
            && (!HasDraft(s, ctx.tenant, id) ==> out.error == NotFound)
            && (HasDraft(s, ctx.tenant, id) && s.drafts[id].status != AwaitingApproval ==> out.error == Conflict)
            && (out.error == PolicyDenied ==>
                  HasDraft(s, ctx.tenant, id) && s.drafts[id].approvalId.Some?
                  && HasApproval(s, ctx.tenant, s.drafts[id].approvalId.value)
                  && (ctx.actor == s.approvals[s.drafts[id].approvalId.value].requestedBy
                      || ctx.actor in Contributors(s, ctx.tenant, id)))
  {
    hide Contributors;
  }

  // ---------- publish ----------

  /** What holds whenever the adapter is called. */
  predicate MayCallAdapter(s: State, env: Env, ctx: Ctx, id: Id, target: string, editorial: Editorial, start: int) {
    && id in s.drafts && s.drafts[id].tenant == ctx.tenant && s.drafts[id].status == Approved
    && target in env.targets && !editorial.blank
    && (s.drafts[id].gate.Some? && s.drafts[id].gate.value.requiresMarking ==> env.hasSigningKey)
    && var d := s.drafts[id];
    (d.approvalId.Some? ==>
       InForce(s, ctx.tenant, d.approvalId.value,
               env.fingerprint(Payload(id, env.sha(d.body), d.title, d.slug, d.aiAssisted)), start))
  }

  /**
    Nothing leaves the house before every check has passed at the moment publishing starts: otherwise, whatever the
    adapter would have answered and however long it would have taken, there is no row and no event.
   */
  lemma NoRowWithoutChecks(s: State, env: Env, ctx: Ctx, id: Id, target: string, editorial: Editorial, start: int,
                           ok: bool, finish: int)
    requires !MayCallAdapter(s, env, ctx, id, target, editorial, start)
    ensures var (t, out) := PublishDraft(s, env, ctx, id, target, editorial, start, ok, finish);
            out.Threw? && t.publications == s.publications && t.events == s.events && t.drafts == s.drafts
  {}

  /** Which error stops a publication, and that it at most expires the draft's own approval, when that is due. */
  lemma PublishRefusals(s: State, env: Env, ctx: Ctx, id: Id, target: string, editorial: Editorial, start: int,
                        ok: bool, finish: int)
    requires !MayCallAdapter(s, env, ctx, id, target, editorial, start)
    ensures var (t, out) := PublishDraft(s, env, ctx, id, target, editorial, start, ok, finish);
            && out.Threw?
            && (!HasDraft(s, ctx.tenant, id) ==> out.error == NotFound)
            && (HasDraft(s, ctx.tenant, id) ==>
                  var d := s.drafts[id];
                  var unmarked := d.gate.Some? && d.gate.value.requiresMarking && !env.hasSigningKey;
                  && (d.status != Approved ==> out.error == ApprovalRequired)
                  && (d.status == Approved && target !in env.targets ==> out.error == NotFound)
                  && (d.status == Approved && target in env.targets && unmarked ==> out.error == PolicyDenied)
                  && (d.status == Approved && target in env.targets && !unmarked && editorial.blank ==>
                        out.error == Validation)
                  && (d.status == Approved && target in env.targets && !unmarked && !editorial.blank ==>
                        d.approvalId.Some?
                        && out.error == if HasApproval(s, ctx.tenant, d.approvalId.value) then ApprovalRequired
                                        else NotFound))
            && t.approvals.Keys == s.approvals.Keys
            && (forall k :: k in s.approvals && t.approvals[k] != s.approvals[k] ==>
                  && s.approvals[k].status in {Pending, Granted}
                  && start - s.approvals[k].requestedAt > 30 * 24 * 60 * 60 * 1000
                  && HasDraft(s, ctx.tenant, id) && s.drafts[id].approvalId == Some(k)
                  && t.approvals[k] == s.approvals[k].(status := Expired))
  {}

  /** In particular an approval that is not granted, or has lapsed by the start, stops the publication. */
  lemma LapsedApprovalStopsPublish(s: State, env: Env, ctx: Ctx, id: Id, k: Id, target: string, editorial: Editorial,
                                   start: int, ok: bool, finish: int)
    requires id in s.drafts && s.drafts[id].approvalId == Some(k) && k in s.approvals
    requires s.approvals[k].status != Granted || start - s.approvals[k].requestedAt > VALIDITY
    ensures var (t, out) := PublishDraft(s, env, ctx, id, target, editorial, start, ok, finish);
            out.Threw? && t.publications == s.publications && t.events == s.events && t.drafts == s.drafts
  {
    hide PublishDraft;
    NoRowWithoutChecks(s, env, ctx, id, target, editorial, start, ok, finish);
  }

  /**
    With the checks passed, publishing succeeds exactly when the adapter does and the approval, if any, is still in
    time; a failed adapter leaves a failed row and one event.
   */
  lemma PublishOutcome(s: State, env: Env, ctx: Ctx, id: Id, target: string, editorial: Editorial, start: int,
                       ok: bool, finish: int)
    requires MayCallAdapter(s, env, ctx, id, target, editorial, start)
    ensures var (t, out) := PublishDraft(s, env, ctx, id, target, editorial, start, ok, finish);
            var d := s.drafts[id];
            && t.publications.Keys == s.publications.Keys + {s.nextId} && t.nextId > s.nextId
            && (forall p :: p in s.publications && p != s.nextId ==> t.publications[p] == s.publications[p])
            && SentRow(env, ctx, id, d, target, editorial, t.publications[s.nextId])
            && (out.Done? <==>
                  ok && (d.approvalId.Some? ==>
                           finish - s.approvals[d.approvalId.value].requestedAt <= 30 * 24 * 60 * 60 * 1000))
            && t.publications[s.nextId].status
                 == (if !ok then FailedToPublish else if out.Done? then Live else InFlight)
            && (out.Threw? ==> t.drafts == s.drafts && out.error == if ok then ApprovalRequired else AdapterFailed)
            && (!ok ==> t.approvals == s.approvals && t.events == s.events
                          + [Event(ctx.tenant, ctx.actor, DraftPublishFailed, Some(id), None, finish)])
  {
    hide ManifestFor;
    SentRowOf(env, ctx, id, s.drafts[id], target, editorial);
  }

  /** What the adapter gets for draft `d`: its present body, signed for this editor exactly when there is a key. */
  predicate SentRow(env: Env, ctx: Ctx, id: Id, d: Draft, target: string, editorial: Editorial, row: Publication) {
    && row.tenant == ctx.tenant && row.draft == id && row.target == target
    && row.sentBody == d.body && row.contentHash == env.sha(d.body)
    && (row.manifest.Some? <==> env.hasSigningKey)
    && (row.manifest.Some? ==>
          var m := row.manifest.value;
          && m.contentHash == env.sha(d.body) && m.aiAssisted == d.aiAssisted && m.editor == editorial.name
          && m.approvalId == d.approvalId
          && m.approvedBy == if d.approvalId.Some? then d.reviewer else None)
  }

  lemma SentRowOf(env: Env, ctx: Ctx, id: Id, d: Draft, target: string, editorial: Editorial)
    ensures forall status ::
      SentRow(env, ctx, id, d, target, editorial,
              Publication(ctx.tenant, id, target, status, d.body, env.sha(d.body), ManifestFor(env, d, editorial.name)))
  {}

  /** A successful publication marks the draft published, and the last event says so. */
  lemma PublishActs(s: State, env: Env, ctx: Ctx, id: Id, target: string, editorial: Editorial, start: int,
                    ok: bool, finish: int)
    requires PublishDraft(s, env, ctx, id, target, editorial, start, ok, finish).1.Done?
    ensures var (t, out) := PublishDraft(s, env, ctx, id, target, editorial, start, ok, finish);
            && out.id == s.nextId && HasDraft(s, ctx.tenant, id) && t.drafts.Keys == s.drafts.Keys
            && (forall y :: y in s.drafts && y != id ==> t.drafts[y] == s.drafts[y])
            && var d, d' := s.drafts[id], t.drafts[id];
            && d'.status == Published && d'.publishedAt == Some(finish)
            && d' == d.(status := d'.status, publishedAt := d'.publishedAt)
            && |t.events| > |s.events| && t.events[..|s.events|] == s.events
            && var e := t.events[|t.events| - 1];
            && e.tenant == ctx.tenant && e.actor == ctx.actor && e.draft == Some(id) && e.at == finish
            && e.approvalId == d.approvalId
            && e.action.DraftPublished? && e.action.hash == env.sha(d.body) && e.action.approvedBy == d.reviewer
  {
    hide ManifestFor, PayloadOf, MarkingMissing;
  }

  /** It consumes the draft's approval, if it has one, and no other; the ledger has the consumption first. */
  lemma PublishConsumes(s: State, env: Env, ctx: Ctx, id: Id, target: string, editorial: Editorial, start: int,
                        ok: bool, finish: int)
    requires PublishDraft(s, env, ctx, id, target, editorial, start, ok, finish).1.Done?
    ensures var t := PublishDraft(s, env, ctx, id, target, editorial, start, ok, finish).0;
            && id in s.drafts && t.approvals.Keys == s.approvals.Keys
            && (forall j :: j in s.approvals && s.drafts[id].approvalId != Some(j) ==> t.approvals[j] == s.approvals[j])
            && (s.drafts[id].approvalId.None? ==> |t.events| == |s.events| + 1)
            && (s.drafts[id].approvalId.Some? ==>
                  var k := s.drafts[id].approvalId.value;
                  && k in s.approvals && t.approvals[k].status == Consumed
                  && t.approvals[k] == s.approvals[k].(status := Consumed)
                  && |t.events| == |s.events| + 2
                  && var c := t.events[|s.events|];
                  && c.action == ApprovalConsumed && c.approvalId == Some(k) && c.draft == Some(s.approvals[k].draft)
                  && c.tenant == ctx.tenant && c.actor == ctx.actor && c.at == finish)
  {
    hide ManifestFor, PayloadOf, MarkingMissing;
  }

  /** The retention job expires exactly the tenant's open approvals requested more than 30 days ago. */
  lemma RetentionIsExact(s: State, ctx: Ctx, now: int)
    ensures var t := ExpireApprovals(s, ctx, now);
            && t.drafts == s.drafts && t.publications == s.publications && t.approvals.Keys == s.approvals.Keys
            && t.events == s.events + [Event(ctx.tenant, ctx.actor, RetentionApplied, None, None, now)]
            && (forall k :: k in s.approvals ==>
                  if s.approvals[k].tenant == ctx.tenant && s.approvals[k].status in {Pending, Granted}
                     && now - s.approvals[k].requestedAt > 30 * 24 * 60 * 60 * 1000
                  then t.approvals[k] == s.approvals[k].(status := Expired) && t.approvals[k].status == Expired
                  else t.approvals[k] == s.approvals[k])
  {}

  // ---------- where the rows of a run come from ----------

  lemma LastStep(env: Env, ops: seq<Op>)
    requires ops != []
    ensures var n := |ops| - 1;
            Run(env, EMPTY, ops) == Step(env, Run(env, EMPTY, ops[..n]), ops[n])
  {
    hide Step;
    var n := |ops| - 1;
    assert ops == ops[..n] + [ops[n]];
    RunSplits(env, EMPTY, ops[..n], [ops[n]]);
  }

  /** Operation `op` in state `s` puts publication row `p`, as it stays. */
  predicate Publishes(env: Env, s: State, op: Op, p: Id, row: Publication) {
    && op.Publish? && p == s.nextId
    && MayCallAdapter(s, env, op.ctx, op.id, op.target, op.editorial, op.now)
    && SentRow(env, op.ctx, op.id, s.drafts[op.id], op.target, op.editorial, row)
    && (row.status == FailedToPublish <==> !op.adapterOk)
    && (row.status == Live <==> PublishDraft(s, env, op.ctx, op.id, op.target, op.editorial, op.now, op.adapterOk,
                                             op.finish).1.Done?)
  }

  lemma StepRows(env: Env, s: State, op: Op, p: Id)
    requires IdsOk(s) && p in Step(env, s, op).publications
    ensures (p in s.publications && Step(env, s, op).publications[p] == s.publications[p])
            || Publishes(env, s, op, p, Step(env, s, op).publications[p])
  {
    hide MayCallAdapter, SentRow, Contributors, PublishDraft, CreateDraft, GateDraft, UpdateDraft, VerifyDraft,
      DecideDraft;
    match op
    case Create(ctx, input, now) => CreateStores(s, ctx, input, now);
    case Update(ctx, id, c, now) => UpdateEdits(s, ctx, id, c, now);
    case Verify(ctx, id, now) => VerifyRecords(s, env, ctx, id, now);
    case Gate(ctx, id, now) => GateActs(s, env, ctx, id, now);
    case DecideOn(ctx, id, grant, now) => DecisionActs(s, ctx, id, grant, now);
    case Retention(ctx, now) => RetentionIsExact(s, ctx, now);
    case Publish(ctx, id, target, editorial, now, ok, finish) =>
      if MayCallAdapter(s, env, ctx, id, target, editorial, now) {
        PublishOutcome(s, env, ctx, id, target, editorial, now, ok, finish);
      } else {
        NoRowWithoutChecks(s, env, ctx, id, target, editorial, now, ok, finish);
      }
  }

  /**
    Every publication row of a run was put by one publish that passed all its checks, with the body, the approval
    and the status it had then; no later operation touches it.
   */
  lemma {:induction false} RowsComeFromPublishes(env: Env, ops: seq<Op>, p: Id)
    requires p in Run(env, EMPTY, ops).publications
    ensures exists i :: 0 <= i < |ops|
              && Publishes(env, Run(env, EMPTY, ops[..i]), ops[i], p, Run(env, EMPTY, ops).publications[p])
    decreases |ops|
  {
    hide Step, Publishes, Inv, IdsOk;
    if ops != [] {
      var n := |ops| - 1;
      var s := Run(env, EMPTY, ops[..n]);
      LastStep(env, ops);
      Reachable(env, ops[..n]);
      InvIds(env, s);
      StepRows(env, s, ops[n], p);
      if !Publishes(env, s, ops[n], p, Run(env, EMPTY, ops).publications[p]) {
        RowsComeFromPublishes(env, ops[..n], p);
        var i :| 0 <= i < n
          && Publishes(env, Run(env, EMPTY, ops[..n][..i]), ops[..n][i], p, s.publications[p]);
        assert ops[..n][..i] == ops[..i];
      }
    }
  }

  /** Operation `op` in state `s` asks for approval `a`, numbered `k`. */
  predicate Asks(env: Env, s: State, op: Op, k: Id, a: Approval) {
    && op.Gate? && k == s.nextId && HasDraft(s, op.ctx.tenant, op.id)
    && var d := s.drafts[op.id];
    && d.status == Verified && d.verification.Some?
    && !BlocksDraft(env.policy, d, d.verification.value) && AsksForDraft(env.policy, d, d.verification.value)
    && a.tenant == op.ctx.tenant && a.draft == op.id && a.requestedBy == op.ctx.actor && a.requestedAt == op.now
    && a.payloadHash == env.fingerprint(Payload(op.id, env.sha(d.body), d.title, d.slug, d.aiAssisted))
  }

  /** Operation `op` in state `s` grants approval `k`, which ends up as `a`. */
  predicate Grants(s: State, op: Op, k: Id, a: Approval) {
    && op.DecideOn? && op.grant && CanDecide(s, op.ctx, op.id, op.now)
    && s.drafts[op.id].approvalId == Some(k) && a.decidedBy == Some(op.ctx.actor)
  }

  predicate SameRequest(a: Approval, b: Approval) {
    a.tenant == b.tenant && a.draft == b.draft && a.requestedBy == b.requestedBy && a.requestedAt == b.requestedAt
    && a.payloadHash == b.payloadHash
  }

  predicate IsGranted(a: Approval) {
    a.status == Granted || a.status == Consumed
  }

  /** The approvals of `t` are those of `s`; none is granted in `t` that was not granted, by the same person, in `s`. */
  predicate GrantsNothing(s: State, t: State) {
    && t.approvals.Keys == s.approvals.Keys
    && forall k :: k in s.approvals ==> StaysAsked(s.approvals[k], t.approvals[k])
  }

  predicate StaysAsked(a: Approval, b: Approval) {
    SameRequest(b, a) && (IsGranted(b) ==> IsGranted(a) && b.decidedBy == a.decidedBy)
  }

  lemma ConsumeGrantsNothing(s: State, ctx: Ctx, k: Id, hash: string, now: int)
    ensures GrantsNothing(s, AssertValid(s, ctx.tenant, k, hash, now).0)
    ensures GrantsNothing(s, ConsumeApproval(s, ctx, k, hash, now).0)
  {}

  lemma PublishGrantsNothing(env: Env, s: State, ctx: Ctx, id: Id, target: string, editorial: Editorial, start: int,
                             ok: bool, finish: int)
    ensures GrantsNothing(s, PublishDraft(s, env, ctx, id, target, editorial, start, ok, finish).0)
  {
    hide PayloadOf, ManifestFor, MarkingMissing, AssertValid, ConsumeApproval, GrantsNothing;
    SameGrantsNothing(s);
    if HasDraft(s, ctx.tenant, id) {
      var d := s.drafts[id];
      var hash := env.fingerprint(PayloadOf(env, id, d));
      var row := Publication(ctx.tenant, id, target, InFlight, d.body, env.sha(d.body),
                             ManifestFor(env, d, editorial.name));
      var u := PutPublication(s, s.nextId, row).(nextId := s.nextId + 1);
      if d.approvalId.Some? {
        ConsumeGrantsNothing(s, ctx, d.approvalId.value, hash, start);
        ConsumeGrantsNothing(u, ctx, d.approvalId.value, hash, finish);
      }
    }
  }

  /** Only approvals matter to what is granted. */
  lemma SameGrantsNothing(s: State)
    ensures forall t: State :: t.approvals == s.approvals ==> GrantsNothing(s, t)
    ensures forall u: State, v: State, t: State {:trigger GrantsNothing(u, v), GrantsNothing(s, t)} ::
              u.approvals == s.approvals && t.approvals == v.approvals && GrantsNothing(u, v) ==> GrantsNothing(s, t)
  {}

  /** What an operation may do to approval `k`: nothing, expire or consume it, grant it, or ask for it. */
  predicate StepApproval(env: Env, s: State, op: Op, k: Id, a: Approval) {
    || (k in s.approvals && SameRequest(a, s.approvals[k])
        && (IsGranted(a) ==>
              Grants(s, op, k, a) || (IsGranted(s.approvals[k]) && a.decidedBy == s.approvals[k].decidedBy)))
    || (Asks(env, s, op, k, a) && a.status == Pending)
  }

  lemma DecisionApprovals(env: Env, s: State, ctx: Ctx, id: Id, grant: bool, now: int, k: Id)
    requires k in DecideDraft(s, ctx, id, grant, now).0.approvals
    ensures StepApproval(env, s, DecideOn(ctx, id, grant, now), k,
                         DecideDraft(s, ctx, id, grant, now).0.approvals[k])
  {
    hide Contributors, DecideDraft, Asks;
    DecisionActs(s, ctx, id, grant, now);
    if DecideDraft(s, ctx, id, grant, now).1.Threw? {
      RefusedDecision(s, ctx, id, grant, now);
    }
  }

  lemma GateApprovals(env: Env, s: State, ctx: Ctx, id: Id, now: int, k: Id)
    requires IdsOk(s) && k in GateDraft(s, env, ctx, id, now).0.approvals
    ensures StepApproval(env, s, Gate(ctx, id, now), k, GateDraft(s, env, ctx, id, now).0.approvals[k])
  {
    hide GateDraft, BlocksDraft, AsksForDraft, OnlyDraftRow;
    GateActs(s, env, ctx, id, now);
  }

  lemma StepApprovals(env: Env, s: State, op: Op, k: Id)
    requires IdsOk(s) && k in Step(env, s, op).approvals
    ensures StepApproval(env, s, op, k, Step(env, s, op).approvals[k])
  {
    hide IdsOk, Asks, Grants, CreateDraft, UpdateDraft, VerifyDraft, GateDraft, DecideDraft, PublishDraft, ValidSlug;
    match op
    case Create(ctx, input, now) => CreateStores(s, ctx, input, now);
    case Update(ctx, id, c, now) => UpdateEdits(s, ctx, id, c, now);
    case Verify(ctx, id, now) => VerifyRecords(s, env, ctx, id, now);
    case Gate(ctx, id, now) => GateApprovals(env, s, ctx, id, now, k);
    case DecideOn(ctx, id, grant, now) => DecisionApprovals(env, s, ctx, id, grant, now, k);
    case Retention(ctx, now) => RetentionIsExact(s, ctx, now);
    case Publish(ctx, id, target, editorial, now, ok, finish) =>
      PublishGrantsNothing(env, s, ctx, id, target, editorial, now, ok, finish);
  }

  /** Who asked, and who granted, is read off columns that stay. */
  lemma SameIsAsked(env: Env, s: State, op: Op, k: Id, a: Approval, b: Approval)
    ensures SameRequest(b, a) && Asks(env, s, op, k, a) ==> Asks(env, s, op, k, b)
    ensures a.decidedBy == b.decidedBy && Grants(s, op, k, a) ==> Grants(s, op, k, b)
  {
    hide CanDecide, BlocksDraft, AsksForDraft;
  }

  /**
    Every approval of a run was asked for by one gate that sent its draft to a human, for the payload the draft had
    at that moment; no later operation changes what was asked, by whom or when.
   */
  lemma {:induction false} ApprovalsComeFromGates(env: Env, ops: seq<Op>, k: Id)
    requires k in Run(env, EMPTY, ops).approvals
    ensures exists i :: 0 <= i < |ops|
              && Asks(env, Run(env, EMPTY, ops[..i]), ops[i], k, Run(env, EMPTY, ops).approvals[k])
    decreases |ops|
  {
    hide Step, Inv, IdsOk, Asks, Grants, SameRequest;
    if ops != [] {
      var n := |ops| - 1;
      var s := Run(env, EMPTY, ops[..n]);
      LastStep(env, ops);
      Reachable(env, ops[..n]);
      InvIds(env, s);
      StepApprovals(env, s, ops[n], k);
      if !Asks(env, s, ops[n], k, Run(env, EMPTY, ops).approvals[k]) {
        ApprovalsComeFromGates(env, ops[..n], k);
        var i :| 0 <= i < n && Asks(env, Run(env, EMPTY, ops[..n][..i]), ops[..n][i], k, s.approvals[k]);
        assert ops[..n][..i] == ops[..i];
        SameIsAsked(env, Run(env, EMPTY, ops[..i]), ops[i], k, s.approvals[k], Run(env, EMPTY, ops).approvals[k]);
      }
    }
  }

  /**
    Every approval of a run that is granted or consumed was granted by one decision, in time and by someone who had
    neither asked for it nor, as far as the ledger is read, worked on the draft.
   */
  lemma {:induction false} GrantsComeFromDecisions(env: Env, ops: seq<Op>, k: Id)
    requires k in Run(env, EMPTY, ops).approvals && IsGranted(Run(env, EMPTY, ops).approvals[k])
    ensures exists i :: 0 <= i < |ops|
              && Grants(Run(env, EMPTY, ops[..i]), ops[i], k, Run(env, EMPTY, ops).approvals[k])
    decreases |ops|
  {
    hide Step, Inv, IdsOk, Asks, Grants, SameRequest;
    if ops != [] {
      var n := |ops| - 1;
      var s := Run(env, EMPTY, ops[..n]);
      LastStep(env, ops);
      Reachable(env, ops[..n]);
      InvIds(env, s);
      StepApprovals(env, s, ops[n], k);
      if !Grants(s, ops[n], k, Run(env, EMPTY, ops).approvals[k]) {
        GrantsComeFromDecisions(env, ops[..n], k);
        var i :| 0 <= i < n && Grants(Run(env, EMPTY, ops[..n][..i]), ops[..n][i], k, s.approvals[k]);
        assert ops[..n][..i] == ops[..i];
        SameIsAsked(env, Run(env, EMPTY, ops[..i]), ops[i], k, s.approvals[k], Run(env, EMPTY, ops).approvals[k]);
      }
    }
  }

  /** Over every run, nobody approved or rejected a draft they are the author of. */
  lemma AuthorNeverDecides(env: Env, ops: seq<Op>, x: Id)
    requires var s := Run(env, EMPTY, ops);
             x in s.drafts && s.drafts[x].approvalId.Some? && IsDecided(s.drafts[x].status)
    ensures var d := Run(env, EMPTY, ops).drafts[x];
            d.reviewer.Some? && d.reviewer.value != d.author
  {
    hide Run, Inv, DraftEvents, PayloadOf;
    Reachable(env, ops);
    LinkFacts(env, Run(env, EMPTY, ops), x);
  }

  // ---------- what the policy asks of published text ----------

  /**
    Under a policy that wants AI-assisted text disclosed and marked, every live row of AI-assisted text carries a
    manifest of the published body that says so.
   */
  lemma AiTextIsMarked(env: Env, ops: seq<Op>, x: Id, p: Id)
    requires env.policy.disclosureWhenAiAssisted && env.policy.machineReadableMarking
    requires var s := Run(env, EMPTY, ops);
             x in s.drafts && s.drafts[x].aiAssisted && p in LiveRows(s, x)
    ensures var s := Run(env, EMPTY, ops);
            && s.drafts[x].status == Published
            && s.publications[p].sentBody == s.drafts[x].body
            && s.publications[p].manifest.Some?
            && s.publications[p].manifest.value.contentHash == env.sha(s.drafts[x].body)
            && s.publications[p].manifest.value.aiAssisted
  {
    hide Run, Contributors, Decide, LiveRows;
    Reachable(env, ops);
    var s := Run(env, EMPTY, ops);
    assert p in s.publications && s.publications[p].draft == x && s.publications[p].status == Live by {
      LiveRowIs(s, x, p);
    }
    assert RowOk(env, s, p);
    RecordsAreCurrent(env, ops, x);
    PublishedIsMarked(env, ops, x, p);
  }

  lemma LiveRowIs(s: State, x: Id, p: Id)
    requires p in LiveRows(s, x)
    ensures p in s.publications && s.publications[p].draft == x && s.publications[p].status == Live
  {}

  /**
    No text the policy blocks is published: coverage, claims and sources of every published draft pass, and one
    that the policy sends to a human was granted by a decision of the run.
   */
  lemma PublishedPassedPolicy(env: Env, ops: seq<Op>, x: Id)
    requires var s := Run(env, EMPTY, ops); x in s.drafts && s.drafts[x].status == Published
    ensures var s := Run(env, EMPTY, ops);
            var d := s.drafts[x];
            var v := env.verifyDraft(d.body, d.evidence);
            && !BlocksDraft(env.policy, d, v)
            && (AsksForDraft(env.policy, d, v) ==>
                  d.approvalId.Some? && d.approvalId.value in s.approvals
                  && exists i :: 0 <= i < |ops|
                       && Grants(Run(env, EMPTY, ops[..i]), ops[i], d.approvalId.value,
                                 s.approvals[d.approvalId.value]))
  {
    hide Run, Contributors, CanDecide, Grants;
    Reachable(env, ops);
    var s := Run(env, EMPTY, ops);
    var d := s.drafts[x];
    assert DraftOk(env, s, x);
    if AsksForDraft(env.policy, d, env.verifyDraft(d.body, d.evidence)) {
      LinkFacts(env, s, x);
      GrantsComeFromDecisions(env, ops, d.approvalId.value);
    }
  }
}
