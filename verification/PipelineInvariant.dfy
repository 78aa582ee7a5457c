/**
  The inductive invariant of the publication state machine and the fact that every operation keeps it.
 */
module PipelineInvariant {
  import opened Basics
  import opened PublicationPolicy
  import opened PipelineModel

  predicate IsGated(status: DraftStatus) {
    status.BlockedByPolicy? || status.AwaitingApproval? || status.Approved? || status.Rejected? || status.Published?
  }

  predicate IsDecided(status: DraftStatus) {
    status.Approved? || status.Rejected? || status.Published?
  }

  /** The route a gated draft is on agrees with the gate's effect. */
  predicate Routed(d: Draft, effect: Effect) {
    match d.status
    case BlockedByPolicy => effect == Deny && d.approvalId.None?
    case AwaitingApproval => effect == RequireApproval && d.approvalId.Some?
    case Rejected => effect == RequireApproval && d.approvalId.Some?
    case Approved => (effect == Allow && d.approvalId.None?) || (effect == RequireApproval && d.approvalId.Some?)
    case Published => (effect == Allow && d.approvalId.None?) || (effect == RequireApproval && d.approvalId.Some?)
    case _ => false
  }

  predicate StatusesAgree(d: DraftStatus, a: ApprovalStatus) {
    match d
    case AwaitingApproval => a == Pending || a == Expired
    case Approved => a == Granted || a == Expired
    case Rejected => a == Refused
    case Published => a == Consumed
    case _ => false
  }

  /** The approval is bound to the draft's present payload and, once decided, was decided by an outsider. */
  predicate Linked(env: Env, x: Id, d: Draft, a: Approval, contributors: set<string>) {
    && a.draft == x
    && a.tenant == d.tenant
    && a.payloadHash == env.fingerprint(PayloadOf(env, x, d))
    && StatusesAgree(d.status, a.status)
    && (IsDecided(d.status) ==>
          && d.reviewer.Some?
          && a.decidedBy == d.reviewer
          && d.reviewer.value != a.requestedBy
          && d.reviewer.value !in contributors)
  }

  /** What holds of draft row `d` with id `x`, the approval it points to and its contributors. */
  predicate DraftSound(env: Env, x: Id, d: Draft, a: Option<Approval>, contributors: set<string>) {
    && (d.status != Drafting ==> d.verification == Some(env.verifyDraft(d.body, d.evidence)))
    && (d.gate.Some? <==> IsGated(d.status))
    && (d.gate.Some? ==> d.gate.value == Decide(env.policy, FactsOf(d)) && Routed(d, d.gate.value.effect))
    && (d.approvalId.Some? ==> IsGated(d.status) && a.Some? && Linked(env, x, d, a.value, contributors))
  }

  function ApprovalOf(s: State, x: Id): Option<Approval>
    requires x in s.drafts
  {
    var k := s.drafts[x].approvalId;
    if k.Some? && k.value in s.approvals then Some(s.approvals[k.value]) else None
  }

  predicate DraftOk(env: Env, s: State, x: Id)
    requires x in s.drafts
  {
    DraftSound(env, x, s.drafts[x], ApprovalOf(s, x), Contributors(s, s.drafts[x].tenant, x))
  }

  /** When approval `k` was consumed, according to the ledger. */
  function ConsumedAt(events: seq<Event>, k: Id): seq<int> {
    if events == [] then []
    else
      var last := events[|events| - 1];
      ConsumedAt(events[..|events| - 1], k)
      + (if last.action == ApprovalConsumed && last.approvalId == Some(k) then [last.at] else [])
  }

  /** What holds of approval row `a` with id `k`, the times it was consumed and the draft it is about. */
  predicate ApprovalSound(k: Id, a: Approval, times: seq<int>, d: Option<Draft>) {
    && (a.status in {Granted, Refused, Consumed} ==> a.decidedBy.Some? && a.decidedBy.value != a.requestedBy)
    && (if a.status == Consumed
        then |times| == 1 && times[0] - a.requestedAt <= VALIDITY
             && d.Some? && d.value.status == Published && d.value.approvalId == Some(k)
        else times == [])
  }

  function DraftOf(s: State, k: Id): Option<Draft>
    requires k in s.approvals
  {
    var x := s.approvals[k].draft;
    if x in s.drafts then Some(s.drafts[x]) else None
  }

  predicate ApprovalOk(s: State, k: Id)
    requires k in s.approvals
  {
    ApprovalSound(k, s.approvals[k], ConsumedAt(s.events, k), DraftOf(s, k))
  }

  /** Fresh ids are above every id in use. */
  predicate IdsOk(s: State) {
    && (forall x :: x in s.drafts ==> x < s.nextId)
    && (forall k :: k in s.approvals ==> k < s.nextId)
    && (forall p :: p in s.publications ==> p < s.nextId)
  }

  /** The published publication rows of draft `x`. */
  function LiveRows(s: State, x: Id): set<Id> {
    set p | p in s.publications && s.publications[p].draft == x && s.publications[p].status == Live
  }

  predicate RowOk(env: Env, s: State, p: Id)
    requires p in s.publications
  {
    var row := s.publications[p];
    && row.draft in s.drafts
    && (row.status == Live ==>
          var d := s.drafts[row.draft];
          && d.status == Published
          && row.sentBody == d.body
          && row.contentHash == env.sha(d.body)
          && row.manifest == ManifestFor(env, d, if row.manifest.Some? then row.manifest.value.editor else "")
          && (d.gate.Some? && d.gate.value.requiresMarking ==> row.manifest.Some?))
  }

  predicate DraftsOk(env: Env, s: State) {
    forall x :: x in s.drafts ==> DraftOk(env, s, x)
  }

  ghost predicate ApprovalsOk(s: State) {
    && (forall k :: k in s.approvals ==> ApprovalOk(s, k))
    && (forall k: Id :: k !in s.approvals ==> ConsumedAt(s.events, k) == [])
  }

  predicate PublicationsOk(env: Env, s: State) {
    && (forall p :: p in s.publications ==> RowOk(env, s, p))
    && (forall x :: x in s.drafts ==> |LiveRows(s, x)| == if s.drafts[x].status == Published then 1 else 0)
  }

  predicate SlugsUnique(s: State) {
    forall x, y | x in s.drafts && y in s.drafts ::
      s.drafts[x].tenant == s.drafts[y].tenant && s.drafts[x].slug == s.drafts[y].slug ==> x == y
  }

  ghost predicate Inv(env: Env, s: State) {
    IdsOk(s) && DraftsOk(env, s) && ApprovalsOk(s) && PublicationsOk(env, s) && SlugsUnique(s)
  }

  // ---------- what appended events change ----------

  function EditorsRead(events: seq<Event>, tenant: Name, x: Id): set<string> {
    Editors(First(EVENT_LIMIT, DraftEvents(events, tenant, x)))
  }

  /** Events that are not edits of `x` add nobody to the people four-eyes excludes. */
  lemma {:induction false} QuietEvents(events: seq<Event>, more: seq<Event>, tenant: Name, x: Id)
    requires forall e :: e in more ==> !(ConcernsDraft(e, tenant, x) && IsEdit(e))
    ensures EditorsRead(events + more, tenant, x) == EditorsRead(events, tenant, x)
  {
    if more == [] {
      assert events + more == events;
    } else {
      var n := |more| - 1;
      var before := events + more[..n];
      QuietEvents(events, more[..n], tenant, x);
      assert (events + more)[..|events + more| - 1] == before;
      var was, now := DraftEvents(before, tenant, x), DraftEvents(events + more, tenant, x);
      var a, b := First(EVENT_LIMIT, was), First(EVENT_LIMIT, now);
      assert a <= b && |b| <= |a| + 1;
      assert |b| > |a| ==> b == a + [more[n]] && ConcernsDraft(more[n], tenant, x);
    }
  }

  lemma {:induction false} ConsumedAtMore(events: seq<Event>, more: seq<Event>, k: Id)
    requires forall e :: e in more ==> !(e.action == ApprovalConsumed && e.approvalId == Some(k))
    ensures ConsumedAt(events + more, k) == ConsumedAt(events, k)
  {
    if more == [] {
      assert events + more == events;
    } else {
      ConsumedAtMore(events, more[..|more| - 1], k);
      assert (events + more)[..|events + more| - 1] == events + more[..|more| - 1];
    }
  }

  predicate Evolves(a: Approval, b: Approval) {
    a == b || ((a.status == Pending || a.status == Granted) && b == a.(status := Expired))
  }

  predicate QuietFor(s: State, t: State, tenant: Name, x: Id, more: seq<Event>) {
    && t.events == s.events + more
    && (forall e :: e in more ==> !(ConcernsDraft(e, tenant, x) && IsEdit(e)))
  }

  lemma SameContributors(s: State, t: State, x: Id, more: seq<Event>)
    requires x in s.drafts && x in t.drafts && t.drafts[x].author == s.drafts[x].author
    requires QuietFor(s, t, s.drafts[x].tenant, x, more)
    ensures Contributors(t, s.drafts[x].tenant, x) == Contributors(s, s.drafts[x].tenant, x)
  {
    QuietEvents(s.events, more, s.drafts[x].tenant, x);
  }

  /** A draft whose own row did not change, whose approval at most expired and which nobody edited stays in order. */
  lemma FrameDraft(env: Env, s: State, t: State, x: Id, more: seq<Event>)
    requires x in s.drafts && DraftOk(env, s, x)
    requires x in t.drafts && t.drafts[x] == s.drafts[x]
    requires QuietFor(s, t, s.drafts[x].tenant, x, more)
    requires ApprovalOf(s, x).Some? ==>
      ApprovalOf(t, x).Some? && Evolves(ApprovalOf(s, x).value, ApprovalOf(t, x).value)
    ensures DraftOk(env, t, x)
  {
    SameContributors(s, t, x, more);
  }

  lemma FrameApproval(s: State, t: State, k: Id, more: seq<Event>)
    requires k in s.approvals && ApprovalOk(s, k)
    requires k in t.approvals && Evolves(s.approvals[k], t.approvals[k])
    requires t.events == s.events + more
    requires forall e :: e in more ==> !(e.action == ApprovalConsumed && e.approvalId == Some(k))
    requires forall x :: x in s.drafts && s.drafts[x].status == Published ==>
      x in t.drafts && t.drafts[x] == s.drafts[x]
    ensures ApprovalOk(t, k)
  {
    ConsumedAtMore(s.events, more, k);
  }

  /** Operations that leave publications alone and touch no published draft keep the publication facts. */
  lemma FramePublications(env: Env, s: State, t: State)
    requires PublicationsOk(env, s)
    requires t.publications == s.publications
    requires s.drafts.Keys <= t.drafts.Keys
    requires forall x :: x in s.drafts && s.drafts[x].status == Published ==> t.drafts[x] == s.drafts[x]
    requires forall x :: x in t.drafts && t.drafts[x].status == Published ==>
      x in s.drafts && s.drafts[x].status == Published
    ensures PublicationsOk(env, t)
  {
    forall x | x in t.drafts
      ensures |LiveRows(t, x)| == if t.drafts[x].status == Published then 1 else 0
    {
      assert LiveRows(t, x) == LiveRows(s, x);
      if x !in s.drafts {
        assert LiveRows(s, x) == {};
      }
    }
  }

  /** At most draft `x`, which is not published, and approvals about `x` change; other approvals at most expire. */
  predicate OnlyDraft(s: State, t: State, x: Id, more: seq<Event>) {
    && t.drafts.Keys == s.drafts.Keys + {x}
    && (forall y :: y in s.drafts && y != x ==> t.drafts[y] == s.drafts[y])
    && (x in s.drafts ==> s.drafts[x].status != Published)
    && t.drafts[x].status != Published
    && s.approvals.Keys <= t.approvals.Keys
    && (forall k :: k in s.approvals ==> Evolves(s.approvals[k], t.approvals[k]) || s.approvals[k].draft == x)
    && t.publications == s.publications
    && t.events == s.events + more
    && (forall e :: e in more ==> e.action != ApprovalConsumed && e.draft == Some(x))
  }

  lemma FrameOtherDrafts(env: Env, s: State, t: State, x: Id, more: seq<Event>)
    requires DraftsOk(env, s) && OnlyDraft(s, t, x, more)
    ensures forall y :: y in t.drafts && y != x ==> DraftOk(env, t, y)
  {
    forall y | y in t.drafts && y != x ensures DraftOk(env, t, y) {
      assert DraftOk(env, s, y);
      FrameDraft(env, s, t, y, more);
    }
  }

  lemma FrameOtherApprovals(s: State, t: State, x: Id, more: seq<Event>)
    requires ApprovalsOk(s) && OnlyDraft(s, t, x, more)
    ensures forall k :: k in s.approvals && Evolves(s.approvals[k], t.approvals[k]) ==> ApprovalOk(t, k)
    ensures forall k: Id :: ConsumedAt(t.events, k) == ConsumedAt(s.events, k)
  {
    forall k | k in s.approvals && Evolves(s.approvals[k], t.approvals[k]) ensures ApprovalOk(t, k) {
      FrameApproval(s, t, k, more);
    }
    forall k: Id ensures ConsumedAt(t.events, k) == ConsumedAt(s.events, k) { ConsumedAtMore(s.events, more, k); }
  }

  /** What is left to show when an operation changes one unpublished draft: that draft, and approvals it touched. */
  lemma KeepsByOne(env: Env, s: State, t: State, x: Id, more: seq<Event>)
    requires Inv(env, s) && OnlyDraft(s, t, x, more)
    requires IdsOk(t) && SlugsUnique(t)
    requires DraftOk(env, t, x)
    requires forall k :: k in t.approvals && !(k in s.approvals && Evolves(s.approvals[k], t.approvals[k])) ==>
               ApprovalSound(k, t.approvals[k], ConsumedAt(s.events, k), DraftOf(t, k))
    ensures Inv(env, t)
  {
    hide SlugsUnique, DraftOk, RowOk, LiveRows;
    FrameOtherDrafts(env, s, t, x, more);
    FrameOtherApprovals(s, t, x, more);
    FramePublications(env, s, t);
    hide PublicationsOk;
    assert ApprovalsOk(t) by {
      forall k | k in t.approvals ensures ApprovalOk(t, k) {}
    }
  }

  lemma SlugsKept(s: State, t: State, x: Id)
    requires SlugsUnique(s) && x in s.drafts && t.drafts.Keys == s.drafts.Keys
    requires forall y :: y in s.drafts ==>
      t.drafts[y].tenant == s.drafts[y].tenant && t.drafts[y].slug == s.drafts[y].slug
    ensures SlugsUnique(t)
  {}

  lemma InitInv(env: Env)
    ensures Inv(env, EMPTY)
  {}

  lemma Parts(env: Env, s: State)
    requires Inv(env, s)
    ensures IdsOk(s) && DraftsOk(env, s) && ApprovalsOk(s) && SlugsUnique(s)
  {}

  lemma CreateKeepsSlugs(s: State, ctx: Ctx, input: NewDraft, now: int)
    requires SlugsUnique(s) && IdsOk(s)
    ensures SlugsUnique(CreateDraft(s, ctx, input, now).0)
  {
    assert s.nextId !in s.drafts;
  }

  lemma CreateKeeps(env: Env, s: State, ctx: Ctx, input: NewDraft, now: int)
    requires Inv(env, s)
    ensures Inv(env, CreateDraft(s, ctx, input, now).0)
  {
    hide Inv, Contributors, SlugsUnique, DraftsOk, ApprovalsOk, ConsumedAt, SlugInUse, ValidSlug;
    var (t, out) := CreateDraft(s, ctx, input, now);
    if out.Done? {
      Parts(env, s);
      CreateKeepsSlugs(s, ctx, input, now);
      KeepsByOne(env, s, t, s.nextId, [Event(ctx.tenant, ctx.actor, DraftCreated, Some(s.nextId), None, now)]);
    }
  }

  /** Replacing one unpublished draft by one in order that points to no approval, with an event about it. */
  lemma ReplacedKeeps(env: Env, s: State, id: Id, d: Draft, e: Event)
    requires Inv(env, s) && id in s.drafts && s.drafts[id].status != Published
    requires d.tenant == s.drafts[id].tenant && d.slug == s.drafts[id].slug && d.approvalId.None?
    requires d.status != Published && DraftSound(env, id, d, None, {})
    requires e.action != ApprovalConsumed && e.draft == Some(id)
    ensures Inv(env, Log(PutDraft(s, id, d), e))
  {
    hide Inv, SlugsUnique, DraftsOk, ApprovalsOk, ConsumedAt, DraftOk, DraftSound, ApprovalSound, OnlyDraft;
    var t := Log(PutDraft(s, id, d), e);
    Parts(env, s);
    SlugsKept(s, t, id);
    ReplacedOnly(s, id, d, e);
    ReplacedDraft(env, t, id);
    KeepsByOne(env, s, t, id, [e]);
  }

  lemma ReplacedOnly(s: State, id: Id, d: Draft, e: Event)
    requires id in s.drafts && s.drafts[id].status != Published && d.status != Published
    requires e.action != ApprovalConsumed && e.draft == Some(id)
    ensures OnlyDraft(s, Log(PutDraft(s, id, d), e), id, [e])
  {}

  lemma ReplacedDraft(env: Env, t: State, id: Id)
    requires id in t.drafts && t.drafts[id].approvalId.None? && DraftSound(env, id, t.drafts[id], None, {})
    ensures DraftOk(env, t, id)
  {
    hide FactsOf, Contributors;
  }

  lemma UpdateKeeps(env: Env, s: State, ctx: Ctx, id: Id, c: Changes, now: int)
    requires Inv(env, s)
    ensures Inv(env, UpdateDraft(s, ctx, id, c, now).0)
  {
    hide Inv;
    var (t, out) := UpdateDraft(s, ctx, id, c, now);
    if out.Done? {
      ReplacedKeeps(env, s, id, t.drafts[id], Event(ctx.tenant, ctx.actor, DraftUpdated, Some(id), None, now));
    }
  }

  lemma VerifyKeeps(env: Env, s: State, ctx: Ctx, id: Id, now: int)
    requires Inv(env, s)
    ensures Inv(env, VerifyDraft(s, env, ctx, id, now).0)
  {
    hide Inv;
    var (t, out) := VerifyDraft(s, env, ctx, id, now);
    if out.Done? {
      ReplacedKeeps(env, s, id, t.drafts[id], Event(ctx.tenant, ctx.actor, DraftVerified, Some(id), None, now));
    }
  }

  lemma GateKeeps(env: Env, s: State, ctx: Ctx, id: Id, now: int)
    requires Inv(env, s)
    ensures Inv(env, GateDraft(s, env, ctx, id, now).0)
  {
    hide Inv, Contributors, SlugsUnique, ConsumedAt, DraftOk, ApprovalOk, Decide;
    if GateDraft(s, env, ctx, id, now).1.Done? {
      Parts(env, s);
      assert DraftOk(env, s, id);
      assert s.nextId !in s.approvals;
      assert ConsumedAt(s.events, s.nextId) == [];
      SlugsKept(s, GateDraft(s, env, ctx, id, now).0, id);
      if Decide(env.policy, FactsOf(s.drafts[id])).effect == RequireApproval {
        GateAsks(env, s, ctx, id, now);
      } else {
        GateAsksNobody(env, s, ctx, id, now);
      }
    }
  }

  lemma GateAsksNobody(env: Env, s: State, ctx: Ctx, id: Id, now: int)
    requires Inv(env, s) && GateDraft(s, env, ctx, id, now).1.Done? && DraftOk(env, s, id)
    requires Decide(env.policy, FactsOf(s.drafts[id])).effect != RequireApproval
    ensures Inv(env, GateDraft(s, env, ctx, id, now).0)
  {
    hide Inv, Decide, Contributors;
    var t := GateDraft(s, env, ctx, id, now).0;
    var effect := Decide(env.policy, FactsOf(s.drafts[id])).effect;
    assert FactsOf(t.drafts[id]) == FactsOf(s.drafts[id]);
    ReplacedKeeps(env, s, id, t.drafts[id], Event(ctx.tenant, ctx.actor, DraftGated(effect), Some(id), None, now));
  }

  /** The gated draft itself is in order after its approval has been requested. */
  lemma AskedDraft(env: Env, s: State, ctx: Ctx, id: Id, now: int)
    requires GateDraft(s, env, ctx, id, now).1.Done? && DraftOk(env, s, id)
    requires Decide(env.policy, FactsOf(s.drafts[id])).effect == RequireApproval
    ensures DraftOk(env, GateDraft(s, env, ctx, id, now).0, id)
  {
    hide Contributors, Decide;
    var t := GateDraft(s, env, ctx, id, now).0;
    assert PayloadOf(env, id, t.drafts[id]) == PayloadOf(env, id, s.drafts[id]);
    assert FactsOf(t.drafts[id]) == FactsOf(s.drafts[id]);
  }

  lemma GateAsks(env: Env, s: State, ctx: Ctx, id: Id, now: int)
    requires Inv(env, s) && GateDraft(s, env, ctx, id, now).1.Done? && DraftOk(env, s, id)
    requires Decide(env.policy, FactsOf(s.drafts[id])).effect == RequireApproval
    requires IdsOk(s) && SlugsUnique(GateDraft(s, env, ctx, id, now).0)
    requires s.nextId !in s.approvals && ConsumedAt(s.events, s.nextId) == []
    ensures Inv(env, GateDraft(s, env, ctx, id, now).0)
  {
    hide Inv, SlugsUnique, DraftOk, OnlyDraft, PayloadOf, FactsOf, Decide, ConsumedAt;
    var t := GateDraft(s, env, ctx, id, now).0;
    var more := AskedOnly(env, s, ctx, id, now);
    AskedDraft(env, s, ctx, id, now);
    assert t.nextId == s.nextId + 1 && t.publications == s.publications && t.drafts.Keys == s.drafts.Keys;
    KeepsByOne(env, s, t, id, more);
  }

  lemma AskedOnly(env: Env, s: State, ctx: Ctx, id: Id, now: int) returns (more: seq<Event>)
    requires GateDraft(s, env, ctx, id, now).1.Done? && s.nextId !in s.approvals
    requires Decide(env.policy, FactsOf(s.drafts[id])).effect == RequireApproval
    ensures OnlyDraft(s, GateDraft(s, env, ctx, id, now).0, id, more)
  {
    hide Decide, PayloadOf, FactsOf;
    var t := GateDraft(s, env, ctx, id, now).0;
    var hash := env.fingerprint(PayloadOf(env, id, s.drafts[id]));
    more := [Event(ctx.tenant, ctx.actor, ApprovalRequested(hash), Some(id), Some(s.nextId), now),
             Event(ctx.tenant, ctx.actor, DraftGated(RequireApproval), Some(id), Some(s.nextId), now)];
    assert t.events == s.events + more;
  }

  /** Expiring stale approvals, one or many, and logging tenant-level events. */
  lemma ExpiryKeeps(env: Env, s: State, t: State, more: seq<Event>)
    requires Inv(env, s)
    requires t.drafts == s.drafts && t.publications == s.publications && t.nextId == s.nextId
    requires t.approvals.Keys == s.approvals.Keys
    requires forall k :: k in s.approvals ==> Evolves(s.approvals[k], t.approvals[k])
    requires t.events == s.events + more
    requires forall e :: e in more ==> e.action == RetentionApplied
    ensures Inv(env, t)
  {
    hide DraftOk, ApprovalOk, RowOk, LiveRows;
    forall y | y in t.drafts ensures DraftOk(env, t, y) {
      assert DraftOk(env, s, y);
      FrameDraft(env, s, t, y, more);
    }
    FramePublications(env, s, t);
    hide DraftsOk, PublicationsOk;
    forall k | k in s.approvals ensures ApprovalOk(t, k) { FrameApproval(s, t, k, more); }
    forall k: Id | k !in t.approvals ensures ConsumedAt(t.events, k) == [] { ConsumedAtMore(s.events, more, k); }
  }

  lemma ExpireOneKeeps(env: Env, s: State, k: Id, now: int)
    requires Inv(env, s) && k in s.approvals
    ensures Inv(env, ExpireIfStale(s, k, now))
  {
    hide Inv;
    var t := ExpireIfStale(s, k, now);
    assert t.events == s.events + [];
    ExpiryKeeps(env, s, t, []);
  }

  lemma RetentionKeeps(env: Env, s: State, ctx: Ctx, now: int)
    requires Inv(env, s)
    ensures Inv(env, ExpireApprovals(s, ctx, now))
  {
    hide Inv;
    ExpiryKeeps(env, s, ExpireApprovals(s, ctx, now),
                [Event(ctx.tenant, ctx.actor, RetentionApplied, None, None, now)]);
  }

  /** `t` is `s` with draft `id` and its approval `k` decided by `who`. */
  predicate IsDecisionOf(s: State, t: State, id: Id, k: Id, who: Name, grant: bool, more: seq<Event>) {
    && id in s.drafts && k in s.approvals
    && t.drafts == s.drafts[id := s.drafts[id].(status := if grant then Approved else Rejected, reviewer := Some(who))]
    && t.approvals == s.approvals[k := s.approvals[k].(status := if grant then Granted else Refused,
                                                       decidedBy := Some(who))]
    && t.publications == s.publications && t.nextId == s.nextId && t.events == s.events + more
    && (forall e :: e in more ==> e.action != ApprovalConsumed && !IsEdit(e) && e.draft == Some(id))
  }

  lemma DecidedDraft(env: Env, s: State, t: State, id: Id, k: Id, who: Name, grant: bool, more: seq<Event>)
    requires IsDecisionOf(s, t, id, k, who, grant, more) && DraftOk(env, s, id)
    requires s.drafts[id].status == AwaitingApproval && s.drafts[id].approvalId == Some(k)
    requires who != s.approvals[k].requestedBy && who !in Contributors(s, s.drafts[id].tenant, id)
    ensures DraftOk(env, t, id)
  {
    hide Contributors, Decide;
    SameContributors(s, t, id, more);
    assert PayloadOf(env, id, t.drafts[id]) == PayloadOf(env, id, s.drafts[id]);
    assert ApprovalOf(s, id) == Some(s.approvals[k]);
    assert ApprovalOf(t, id) == Some(t.approvals[k]);
  }

  lemma DecidedOnly(s: State, t: State, id: Id, k: Id, who: Name, grant: bool, more: seq<Event>)
    requires IsDecisionOf(s, t, id, k, who, grant, more)
    requires s.drafts[id].status == AwaitingApproval && s.approvals[k].draft == id
    ensures OnlyDraft(s, t, id, more)
  {}

  lemma DecidedApproval(s: State, t: State, id: Id, k: Id, who: Name, grant: bool, more: seq<Event>)
    requires IsDecisionOf(s, t, id, k, who, grant, more) && ApprovalOk(s, k)
    requires s.approvals[k].status == Pending && who != s.approvals[k].requestedBy
    ensures forall j :: j in t.approvals && !(j in s.approvals && Evolves(s.approvals[j], t.approvals[j])) ==>
              ApprovalSound(j, t.approvals[j], ConsumedAt(s.events, j), DraftOf(t, j))
  {}

  lemma DecidedKeeps(env: Env, s: State, t: State, id: Id, k: Id, who: Name, grant: bool, more: seq<Event>)
    requires Inv(env, s) && IsDecisionOf(s, t, id, k, who, grant, more)
    requires s.drafts[id].status == AwaitingApproval && s.drafts[id].approvalId == Some(k)
    requires s.approvals[k].status == Pending
    requires who != s.approvals[k].requestedBy && who !in Contributors(s, s.drafts[id].tenant, id)
    ensures Inv(env, t)
  {
    hide Inv, SlugsUnique, PublicationsOk, Contributors, Decide, ConsumedAt, ApprovalOk, DraftOk;
    Parts(env, s);
    assert DraftOk(env, s, id) && ApprovalOk(s, k);
    LinkFacts(env, s, id);
    hide DraftsOk, ApprovalsOk;
    DecidedDraft(env, s, t, id, k, who, grant, more);
    DecidedOnly(s, t, id, k, who, grant, more);
    DecidedApproval(s, t, id, k, who, grant, more);
    SlugsKept(s, t, id);
    KeepsByOne(env, s, t, id, more);
  }

  /** What the invariant says of a draft that points to an approval. */
  lemma LinkFacts(env: Env, s: State, x: Id)
    requires Inv(env, s) && x in s.drafts && s.drafts[x].approvalId.Some?
    ensures var k := s.drafts[x].approvalId.value;
            k in s.approvals && Linked(env, x, s.drafts[x], s.approvals[k], Contributors(s, s.drafts[x].tenant, x))
  {
    assert DraftOk(env, s, x);
  }

  lemma DecideKeeps(env: Env, s0: State, ctx: Ctx, id: Id, grant: bool, now: int)
    requires Inv(env, s0)
    ensures Inv(env, DecideDraft(s0, ctx, id, grant, now).0)
  {
    hide Inv, Contributors, PayloadOf;
    if HasDraft(s0, ctx.tenant, id) && s0.drafts[id].status == AwaitingApproval && s0.drafts[id].approvalId.Some? {
      var k := s0.drafts[id].approvalId.value;
      LinkFacts(env, s0, id);
      ExpireOneKeeps(env, s0, k, now);
      if DecideDraft(s0, ctx, id, grant, now).1.Done? {
        DecideDoneKeeps(env, s0, ctx, id, k, grant, now);
      }
    }
  }

  lemma DecideDoneKeeps(env: Env, s0: State, ctx: Ctx, id: Id, k: Id, grant: bool, now: int)
    requires HasDraft(s0, ctx.tenant, id) && s0.drafts[id].approvalId == Some(k) && k in s0.approvals
    requires s0.approvals[k].draft == id && Inv(env, ExpireIfStale(s0, k, now))
    requires DecideDraft(s0, ctx, id, grant, now).1.Done?
    ensures Inv(env, DecideDraft(s0, ctx, id, grant, now).0)
  {
    hide Inv, PayloadOf;
    var s, t := ExpireIfStale(s0, k, now), DecideDraft(s0, ctx, id, grant, now).0;
    var more := [Event(ctx.tenant, ctx.actor, ApprovalDecided(grant), Some(id), Some(k), now),
                 Event(ctx.tenant, ctx.actor, DraftDecided(grant), Some(id), Some(k), now)];
    assert t.events == s.events + more;
    assert Contributors(s, ctx.tenant, id) == Contributors(s0, ctx.tenant, id);
    DecidedKeeps(env, s, t, id, k, ctx.actor, grant, more);
  }

  // ---------- publishing ----------

  lemma AddRowRows(env: Env, s: State, t: State, row: Publication)
    requires PublicationsOk(env, s) && IdsOk(s)
    requires row.status != Live && row.draft in s.drafts
    requires t.drafts == s.drafts && t.publications == s.publications[s.nextId := row]
    ensures PublicationsOk(env, t)
  {
    assert s.nextId !in s.publications;
    forall x | x in t.drafts ensures LiveRows(t, x) == LiveRows(s, x) {}
  }

  /** A publication row that is not live, and quiet events, disturb nothing. */
  lemma AddRowKeeps(env: Env, s: State, t: State, row: Publication, more: seq<Event>)
    requires Inv(env, s)
    requires row.status != Live && row.draft in s.drafts
    requires t == s.(publications := s.publications[s.nextId := row], nextId := s.nextId + 1, events := s.events + more)
    requires forall e :: e in more ==> e.action == DraftPublishFailed
    ensures Inv(env, t)
  {
    hide DraftOk, ApprovalOk, PublicationsOk;
    AddRowRows(env, s, t, row);
    forall y | y in t.drafts ensures DraftOk(env, t, y) { FrameDraft(env, s, t, y, more); }
    hide DraftsOk;
    forall k | k in s.approvals ensures ApprovalOk(t, k) { FrameApproval(s, t, k, more); }
    forall k: Id | k !in t.approvals ensures ConsumedAt(t.events, k) == [] { ConsumedAtMore(s.events, more, k); }
  }

  /** `t` is `s` with draft `x` published through row `s.nextId`. */
  predicate IsPublicationOf(env: Env, s: State, t: State, x: Id, row: Publication, finish: int, more: seq<Event>) {
    && x in s.drafts && s.drafts[x].status == Approved
    && t.drafts == s.drafts[x := s.drafts[x].(status := Published, publishedAt := Some(finish))]
    && t.publications == s.publications[s.nextId := row]
    && t.nextId == s.nextId + 1
    && t.events == s.events + more
    && (forall e :: e in more ==>
        !IsEdit(e) && (e.action == ApprovalConsumed ==> e.approvalId == s.drafts[x].approvalId))
    && row.draft == x && row.status == Live
    && row.sentBody == s.drafts[x].body && row.contentHash == env.sha(s.drafts[x].body)
    && row.manifest == ManifestFor(env, s.drafts[x], if row.manifest.Some? then row.manifest.value.editor else "")
    && !MarkingMissing(env, s.drafts[x])
  }

  lemma PublishedRows(env: Env, s: State, t: State, x: Id, row: Publication, finish: int, more: seq<Event>)
    requires IsPublicationOf(env, s, t, x, row, finish, more) && PublicationsOk(env, s) && IdsOk(s)
    ensures PublicationsOk(env, t)
  {
    hide RowOk;
    assert s.nextId !in s.publications;
    PublishedRowsSound(env, s, t, x, row, finish, more);
    forall y | y in t.drafts ensures |LiveRows(t, y)| == if t.drafts[y].status == Published then 1 else 0 {
      if y == x {
        assert LiveRows(s, x) == {};
        assert LiveRows(t, x) == {s.nextId};
      } else {
        assert LiveRows(t, y) == LiveRows(s, y);
      }
    }
  }

  lemma PublishedRowsSound(env: Env, s: State, t: State, x: Id, row: Publication, finish: int, more: seq<Event>)
    requires IsPublicationOf(env, s, t, x, row, finish, more) && PublicationsOk(env, s) && IdsOk(s)
    ensures forall p :: p in t.publications ==> RowOk(env, t, p)
  {
    hide LiveRows;
    forall p | p in t.publications ensures RowOk(env, t, p) {
      if p != s.nextId {
        assert RowOk(env, s, p);
      }
    }
  }

  lemma OwnApproval(env: Env, s: State, x: Id)
    requires x in s.drafts && DraftOk(env, s, x)
    ensures var k := s.drafts[x].approvalId;
            k.Some? ==> k.value in s.approvals && s.approvals[k.value].draft == x
  {}

  /** An approved draft in order is still in order once published, with its approval, if any, consumed. */
  lemma PublishedSound(env: Env, x: Id, d: Draft, a: Option<Approval>, contributors: set<string>, finish: int)
    requires DraftSound(env, x, d, a, contributors) && d.status == Approved && (d.approvalId.None? ==> a.None?)
    ensures DraftSound(env, x, d.(status := Published, publishedAt := Some(finish)),
                       if a.Some? then Some(a.value.(status := Consumed)) else None, contributors)
  {
    hide Decide;
    var t := d.(status := Published, publishedAt := Some(finish));
    assert PayloadOf(env, x, t) == PayloadOf(env, x, d);
    assert d.verification.Some? ==> FactsOf(t) == FactsOf(d);
  }

  /** Publishing keeps every draft in order, given that the approval in force (if any) becomes consumed. */
  lemma PublishedDrafts(env: Env, s: State, t: State, x: Id, row: Publication, finish: int, more: seq<Event>)
    requires IsPublicationOf(env, s, t, x, row, finish, more) && DraftsOk(env, s)
    requires match s.drafts[x].approvalId
             case None => t.approvals == s.approvals
             case Some(k) => k in s.approvals && s.approvals[k].status == Granted
                             && t.approvals == s.approvals[k := s.approvals[k].(status := Consumed)]
    ensures DraftsOk(env, t)
  {
    hide DraftSound, Contributors;
    assert DraftOk(env, s, x);
    forall y | y in t.drafts ensures DraftOk(env, t, y) {
      assert DraftOk(env, s, y);
      SameContributors(s, t, y, more);
      if y == x {
        PublishedSound(env, x, s.drafts[x], ApprovalOf(s, x), Contributors(s, s.drafts[x].tenant, x), finish);
      } else {
        OwnApproval(env, s, x);
        OwnApproval(env, s, y);
        assert ApprovalOf(t, y) == ApprovalOf(s, y);
      }
    }
  }

  lemma PublishedApprovals(env: Env, s: State, t: State, x: Id, row: Publication, finish: int, more: seq<Event>)
    requires IsPublicationOf(env, s, t, x, row, finish, more) && ApprovalsOk(s) && DraftOk(env, s, x)
    requires match s.drafts[x].approvalId
             case None => t.approvals == s.approvals && (forall e :: e in more ==> e.action != ApprovalConsumed)
             case Some(k) => k in s.approvals && s.approvals[k].status == Granted
                             && t.approvals == s.approvals[k := s.approvals[k].(status := Consumed)]
                             && finish - s.approvals[k].requestedAt <= VALIDITY
                             && ConsumedAt(t.events, k) == ConsumedAt(s.events, k) + [finish]
    ensures ApprovalsOk(t)
  {
    hide DraftOk, Contributors, ConsumedAt, ManifestFor;
    var own := s.drafts[x].approvalId;
    forall k: Id ensures own != Some(k) ==> ConsumedAt(t.events, k) == ConsumedAt(s.events, k) {
      if own != Some(k) {
        ConsumedAtMore(s.events, more, k);
      }
    }
    forall k | k in t.approvals ensures ApprovalOk(t, k) {
      assert ApprovalOk(s, k);
      if own == Some(k) {
        OwnApproval(env, s, x);
      }
    }
  }

  lemma PublishedKeeps(env: Env, s: State, t: State, x: Id, row: Publication, finish: int, more: seq<Event>)
    requires Inv(env, s) && IsPublicationOf(env, s, t, x, row, finish, more)
    requires match s.drafts[x].approvalId
             case None => t.approvals == s.approvals && (forall e :: e in more ==> e.action != ApprovalConsumed)
             case Some(k) => k in s.approvals && s.approvals[k].status == Granted
                             && t.approvals == s.approvals[k := s.approvals[k].(status := Consumed)]
                             && finish - s.approvals[k].requestedAt <= VALIDITY
                             && ConsumedAt(t.events, k) == ConsumedAt(s.events, k) + [finish]
    ensures Inv(env, t)
  {
    hide DraftOk, PublicationsOk, ApprovalsOk, MarkingMissing, ManifestFor;
    assert DraftOk(env, s, x);
    PublishedRows(env, s, t, x, row, finish, more);
    PublishedDrafts(env, s, t, x, row, finish, more);
    PublishedApprovals(env, s, t, x, row, finish, more);
    SlugsKept(s, t, x);
  }

  lemma ConsumedOnce(events: seq<Event>, a: Event, b: Event, k: Id)
    requires a.action == ApprovalConsumed && a.approvalId == Some(k) && b.action != ApprovalConsumed
    ensures ConsumedAt(events + [a, b], k) == ConsumedAt(events, k) + [a.at]
  {
    assert (events + [a, b])[..|events| + 1] == events + [a];
    assert (events + [a])[..|events|] == events;
  }

  /** The events a successful publication appends, and what they say about the approval that was consumed. */
  lemma PublishDoneEvents(env: Env, s: State, ctx: Ctx, id: Id, target: string, editorial: Editorial, start: int,
                          finish: int)
      returns (more: seq<Event>)
    requires PublishDraft(s, env, ctx, id, target, editorial, start, true, finish).1.Done?
    ensures PublishDraft(s, env, ctx, id, target, editorial, start, true, finish).0.events == s.events + more
    ensures forall e :: e in more ==>
      !IsEdit(e) && (e.action == ApprovalConsumed ==> e.approvalId == s.drafts[id].approvalId)
    ensures match s.drafts[id].approvalId
            case None => forall e :: e in more ==> e.action != ApprovalConsumed
            case Some(k) => ConsumedAt(s.events + more, k) == ConsumedAt(s.events, k) + [finish]
  {
    hide PayloadOf, ConsumedAt, MarkingMissing, ManifestFor;
    var d := s.drafts[id];
    var done := Event(ctx.tenant, ctx.actor, DraftPublished(env.sha(d.body), d.reviewer), Some(id), d.approvalId,
                      finish);
    if d.approvalId.None? {
      more := [done];
    } else {
      var k := d.approvalId.value;
      var consumed := Event(ctx.tenant, ctx.actor, ApprovalConsumed, Some(s.approvals[k].draft), Some(k), finish);
      ConsumedOnce(s.events, consumed, done, k);
      more := [consumed, done];
      assert s.events + [consumed] + [done] == s.events + more;
    }
  }

  lemma PublishDoneKeeps(env: Env, s: State, ctx: Ctx, id: Id, target: string, editorial: Editorial, start: int,
                         finish: int)
    requires Inv(env, s) && PublishDraft(s, env, ctx, id, target, editorial, start, true, finish).1.Done?
    ensures Inv(env, PublishDraft(s, env, ctx, id, target, editorial, start, true, finish).0)
  {
    hide Inv, PayloadOf, ConsumedAt, Contributors, Decide, MarkingMissing;
    var t := PublishDraft(s, env, ctx, id, target, editorial, start, true, finish).0;
    var d := s.drafts[id];
    var row := Publication(ctx.tenant, id, target, Live, d.body, env.sha(d.body), ManifestFor(env, d, editorial.name));
    var more := PublishDoneEvents(env, s, ctx, id, target, editorial, start, finish);
    PublishedKeeps(env, s, t, id, row, finish, more);
  }

  lemma PublishKeeps(env: Env, s: State, ctx: Ctx, id: Id, target: string, editorial: Editorial, start: int,
                     ok: bool, finish: int)
    requires Inv(env, s)
    ensures Inv(env, PublishDraft(s, env, ctx, id, target, editorial, start, ok, finish).0)
  {
    hide Inv, PayloadOf, ManifestFor;
    var (t, out) := PublishDraft(s, env, ctx, id, target, editorial, start, ok, finish);
    if out.Done? {
      PublishDoneKeeps(env, s, ctx, id, target, editorial, start, finish);
    } else if t != s {
      var d := s.drafts[id];
      var row := Publication(ctx.tenant, id, target, InFlight, d.body, env.sha(d.body),
                             ManifestFor(env, d, editorial.name));
      var failed := row.(status := FailedToPublish);
      var more := [Event(ctx.tenant, ctx.actor, DraftPublishFailed, Some(id), None, finish)];
      if out.error == AdapterFailed {
        assert s.publications[s.nextId := row][s.nextId := failed] == s.publications[s.nextId := failed];
        AddRowKeeps(env, s, t, failed, more);
      } else {
        var k := d.approvalId.value;
        LinkFacts(env, s, id);
        if t == ExpireIfStale(s, k, start) {
          ExpireOneKeeps(env, s, k, start);
        } else {
          var u := s.(publications := s.publications[s.nextId := row], nextId := s.nextId + 1);
          assert s.events + [] == s.events;
          AddRowKeeps(env, s, u, row, []);
          ExpireOneKeeps(env, u, k, finish);
        }
      }
    }
  }

  // ---------- runs ----------

  lemma StepKeeps(env: Env, s: State, op: Op)
    requires Inv(env, s)
    ensures Inv(env, Step(env, s, op))
  {
    hide Inv;
    match op
    case Create(ctx, input, now) => CreateKeeps(env, s, ctx, input, now);
    case Update(ctx, id, changes, now) => UpdateKeeps(env, s, ctx, id, changes, now);
    case Verify(ctx, id, now) => VerifyKeeps(env, s, ctx, id, now);
    case Gate(ctx, id, now) => GateKeeps(env, s, ctx, id, now);
    case DecideOn(ctx, id, grant, now) => DecideKeeps(env, s, ctx, id, grant, now);
    case Publish(ctx, id, target, editorial, now, ok, finish) =>
      PublishKeeps(env, s, ctx, id, target, editorial, now, ok, finish);
    case Retention(ctx, now) => RetentionKeeps(env, s, ctx, now);
  }

  /** Every reachable state satisfies the invariant. */
  lemma {:induction false} RunKeeps(env: Env, s: State, ops: seq<Op>)
    requires Inv(env, s)
    ensures Inv(env, Run(env, s, ops))
    decreases |ops|
  {
    hide Inv;
    if ops != [] {
      StepKeeps(env, s, ops[0]);
      RunKeeps(env, Step(env, s, ops[0]), ops[1..]);
    }
  }
}
