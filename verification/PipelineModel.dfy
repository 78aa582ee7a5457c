/**
  The publication state machine as values: what each operation of `ContentPipeline` and
  `ApprovalService` does to the drafts, approvals, publications and audit_events tables.

  Hashing, claim verification and page analysis are parameters (`Env`). Every operation carries its
  own clock readings; nothing below needs them to be ordered.
 */
module PipelineModel {
  import opened Basics
  import opened PublicationPolicy

  type Id = nat

  datatype DraftStatus = Drafting | Verified | BlockedByPolicy | AwaitingApproval | Approved | Rejected | Published

  datatype ApprovalStatus = Pending | Granted | Refused | Expired | Consumed

  datatype Report = Report(coverage: real, unsupported: nat, placeholders: nat)

  datatype ReadinessSource = NoReadiness | TargetPage | RenderedArtefact

  datatype Draft = Draft(
    tenant: Name, title: string, slug: string, body: string, status: DraftStatus,
    author: string, reviewer: Option<Name>, aiAssisted: bool, evidence: seq<string>,
    topics: seq<string>, sourceKinds: seq<string>,
    verification: Option<Report>, readiness: Option<real>, readinessSource: ReadinessSource,
    gate: Option<Decision>, approvalId: Option<Id>, publishedAt: Option<int>)

  /** What an approval is bound to: `#payload` in pipeline.ts. */
  datatype Payload = Payload(draft: Id, bodyHash: string, title: string, slug: string, aiAssisted: bool)

  datatype Approval = Approval(
    tenant: Name, draft: Id, requestedBy: Name, requestedAt: int, status: ApprovalStatus,
    decidedBy: Option<Name>, payloadHash: string)

  datatype Manifest = Manifest(contentHash: string, aiAssisted: bool, editor: string, approvalId: Option<Id>,
                               approvedBy: Option<Name>)

  datatype PublicationStatus = InFlight | FailedToPublish | Live

  /** A publications row together with what the adapter was handed for it. */
  datatype Publication = Publication(
    tenant: Name, draft: Id, target: string, status: PublicationStatus,
    sentBody: string, contentHash: string, manifest: Option<Manifest>)

  datatype Action =
    | DraftCreated
    | DraftUpdated
    | DraftVerified
    | DraftGated(effect: Effect)
    | ApprovalRequested(payloadHash: string)
    | ApprovalDecided(granted: bool)
    | DraftDecided(granted: bool)
    | ApprovalConsumed
    | DraftPublishFailed
    | DraftPublished(hash: string, approvedBy: Option<Name>)
    | RetentionApplied

  /** An audit event; `draft` is its object id, or None for tenant-level events. */
  datatype Event = Event(tenant: Name, actor: Name, action: Action, draft: Option<Id>, approvalId: Option<Id>, at: int)

  datatype State = State(
    drafts: map<Id, Draft>,
    approvals: map<Id, Approval>,
    publications: map<Id, Publication>,
    events: seq<Event>,
    nextId: Id)

  const EMPTY := State(map[], map[], map[], [], 0)

  datatype Env = Env(
    policy: Policy,
    verifyDraft: (string, seq<string>) -> Report,
    readiness: Draft -> real,
    sha: string -> string,
    fingerprint: Payload -> string,
    targets: set<string>,
    hasSigningKey: bool)

  datatype Ctx = Ctx(tenant: Name, actor: Name)

  datatype Error = Validation | NotFound | Conflict | PolicyDenied | ApprovalRequired | SlugTaken | AdapterFailed

  datatype Outcome = Done(id: Id) | Threw(error: Error)

  datatype NewDraft = NewDraft(
    title: string, slug: string, body: string, author: Option<string>, aiAssisted: bool,
    evidence: seq<string>, topics: seq<string>, sourceKinds: seq<string>, readiness: Option<real>)

  datatype Changes = Changes(
    title: Option<string>, body: Option<string>, evidence: Option<seq<string>>, aiAssisted: Option<bool>)

  /** 30 days in milliseconds. */
  const VALIDITY := 30 * 86_400_000

  /** How many of a draft's events `contributors` reads. */
  const EVENT_LIMIT := 10_000

  // ---------- reading ----------

  function OrElse<T>(o: Option<T>, default: T): T {
    if o.Some? then o.value else default
  }

  predicate SlugHead(c: char) {
    'a' <= c <= 'z' || '0' <= c <= '9'
  }

  /** `^[a-z0-9][a-z0-9-]{0,120}$` */
  predicate ValidSlug(s: string) {
    && 1 <= |s| <= 121
    && SlugHead(s[0])
    && forall i :: 1 <= i < |s| ==> SlugHead(s[i]) || s[i] == '-'
  }

  /** `pipeline.get`: rows of another tenant are not found. */
  predicate HasDraft(s: State, tenant: Name, id: Id) {
    id in s.drafts && s.drafts[id].tenant == tenant
  }

  predicate HasApproval(s: State, tenant: Name, id: Id) {
    id in s.approvals && s.approvals[id].tenant == tenant
  }

  predicate SlugInUse(s: State, tenant: Name, slug: string) {
    exists x :: x in s.drafts && s.drafts[x].tenant == tenant && s.drafts[x].slug == slug
  }

  function PayloadOf(env: Env, id: Id, d: Draft): Payload {
    Payload(id, env.sha(d.body), d.title, d.slug, d.aiAssisted)
  }

  function FactsOf(d: Draft): Facts
    requires d.verification.Some?
  {
    var v := d.verification.value;
    Facts(d.aiAssisted, d.readiness, v.coverage, v.unsupported + v.placeholders, d.topics, d.sourceKinds)
  }

  predicate ConcernsDraft(e: Event, tenant: Name, id: Id) {
    e.tenant == tenant && e.draft == Some(id)
  }

  /** The events of one draft, oldest first. */
  function DraftEvents(events: seq<Event>, tenant: Name, id: Id): seq<Event> {
    if events == [] then []
    else
      var last := events[|events| - 1];
      DraftEvents(events[..|events| - 1], tenant, id) + (if ConcernsDraft(last, tenant, id) then [last] else [])
  }

  predicate IsEdit(e: Event) {
    e.action == DraftCreated || e.action == DraftUpdated
  }

  function Editors(events: seq<Event>): set<string> {
    set e | e in events && IsEdit(e) :: e.actor
  }

  /** `contributors`: the author plus the actors of create/update events among the first 10,000. */
  function Contributors(s: State, tenant: Name, id: Id): set<string>
    requires id in s.drafts
  {
    (if s.drafts[id].author == "" then {} else {s.drafts[id].author})
    + Editors(First(EVENT_LIMIT, DraftEvents(s.events, tenant, id)))
  }

  // ---------- writing ----------

  function Log(s: State, e: Event): State {
    s.(events := s.events + [e])
  }

  function PutDraft(s: State, id: Id, d: Draft): State {
    s.(drafts := s.drafts[id := d])
  }

  function PutApproval(s: State, id: Id, a: Approval): State {
    s.(approvals := s.approvals[id := a])
  }

  function PutPublication(s: State, id: Id, p: Publication): State {
    s.(publications := s.publications[id := p])
  }

  // ---------- ApprovalService ----------

  function RequestApproval(s: State, ctx: Ctx, draft: Id, payloadHash: string, now: int): State {
    var id := s.nextId;
    var a := Approval(ctx.tenant, draft, ctx.actor, now, Pending, None, payloadHash);
    Log(PutApproval(s, id, a).(nextId := id + 1),
        Event(ctx.tenant, ctx.actor, ApprovalRequested(payloadHash), Some(draft), Some(id), now))
  }

  predicate Stale(a: Approval, now: int) {
    (a.status == Pending || a.status == Granted) && now - a.requestedAt > VALIDITY
  }

  function ExpireIfStale(s: State, id: Id, now: int): State
    requires id in s.approvals
  {
    if Stale(s.approvals[id], now) then PutApproval(s, id, s.approvals[id].(status := Expired)) else s
  }

  /** Expiry is persisted even when the decision then throws. */
  function DecideApproval(s: State, ctx: Ctx, id: Id, grant: bool, excluded: set<string>,
                          now: int): (r: (State, Option<Error>))
  {
    if !HasApproval(s, ctx.tenant, id) then (s, Some(NotFound))
    else
      var t := ExpireIfStale(s, id, now);
      var a := t.approvals[id];
      if a.status != Pending then (t, Some(Conflict))
      else if ctx.actor == a.requestedBy || ctx.actor in excluded then (t, Some(PolicyDenied))
      else
        (Log(PutApproval(t, id, a.(status := if grant then Granted else Refused, decidedBy := Some(ctx.actor))),
             Event(ctx.tenant, ctx.actor, ApprovalDecided(grant), Some(a.draft), Some(id), now)), None)
  }

  function AssertValid(s: State, tenant: Name, id: Id, payloadHash: string, now: int): (r: (State, Option<Error>))
    ensures r.1.None? ==> id in r.0.approvals && r.0.approvals[id].status == Granted
    ensures r.1.None? ==> r.0 == s && now - s.approvals[id].requestedAt <= VALIDITY
  {
    if !HasApproval(s, tenant, id) then (s, Some(NotFound))
    else
      var t := ExpireIfStale(s, id, now);
      var a := t.approvals[id];
      if a.status != Granted then (t, Some(ApprovalRequired))
      else if a.payloadHash != payloadHash then (t, Some(ApprovalRequired))
      else (t, None)
  }

  function ConsumeApproval(s: State, ctx: Ctx, id: Id, payloadHash: string, now: int): (r: (State, Option<Error>)) {
    var (t, error) := AssertValid(s, ctx.tenant, id, payloadHash, now);
    if error.Some? then (t, error)
    else
      var a := t.approvals[id];
      (Log(PutApproval(t, id, a.(status := Consumed)),
           Event(ctx.tenant, ctx.actor, ApprovalConsumed, Some(a.draft), Some(id), now)), None)
  }

  // ---------- ContentPipeline ----------

  function CreateDraft(s: State, ctx: Ctx, input: NewDraft, now: int): (State, Outcome) {
    if !ValidSlug(input.slug) then (s, Threw(Validation))
    else if SlugInUse(s, ctx.tenant, input.slug) then (s, Threw(SlugTaken))
    else
      var id := s.nextId;
      var d := Draft(ctx.tenant, input.title, input.slug, input.body, Drafting,
                     OrElse(input.author, ctx.actor), None, input.aiAssisted, input.evidence,
                     input.topics, input.sourceKinds, None, input.readiness,
                     if input.readiness.Some? then TargetPage else NoReadiness, None, None, None);
      (Log(PutDraft(s, id, d).(nextId := id + 1), Event(ctx.tenant, ctx.actor, DraftCreated, Some(id), None, now)),
       Done(id))
  }

  function UpdateDraft(s: State, ctx: Ctx, id: Id, c: Changes, now: int): (State, Outcome) {
    if !HasDraft(s, ctx.tenant, id) then (s, Threw(NotFound))
    else
      var d := s.drafts[id];
      if d.status == Published then (s, Threw(Conflict))
      else
        var keep := d.readinessSource == TargetPage;
        var d' := d.(title := OrElse(c.title, d.title), body := OrElse(c.body, d.body),
                     evidence := OrElse(c.evidence, d.evidence), aiAssisted := OrElse(c.aiAssisted, d.aiAssisted),
                     verification := None,
                     readiness := if keep then d.readiness else None,
                     readinessSource := if keep then TargetPage else NoReadiness,
                     status := Drafting, gate := None, approvalId := None);
        (Log(PutDraft(s, id, d'), Event(ctx.tenant, ctx.actor, DraftUpdated, Some(id), None, now)), Done(id))
  }

  function VerifyDraft(s: State, env: Env, ctx: Ctx, id: Id, now: int): (State, Outcome) {
    if !HasDraft(s, ctx.tenant, id) then (s, Threw(NotFound))
    else
      var d := s.drafts[id];
      if d.status == Published then (s, Threw(Conflict))
      else
        var keep := d.readinessSource == TargetPage;
        var d' := d.(verification := Some(env.verifyDraft(d.body, d.evidence)),
                     readiness := if keep then d.readiness else Some(env.readiness(d)),
                     readinessSource := if keep then TargetPage else RenderedArtefact,
                     status := Verified, gate := None, approvalId := None);
        (Log(PutDraft(s, id, d'), Event(ctx.tenant, ctx.actor, DraftVerified, Some(id), None, now)), Done(id))
  }

  function StatusFor(e: Effect): DraftStatus {
    match e
    case Deny => BlockedByPolicy
    case RequireApproval => AwaitingApproval
    case Allow => Approved
  }

  function GateDraft(s: State, env: Env, ctx: Ctx, id: Id, now: int): (State, Outcome) {
    if !HasDraft(s, ctx.tenant, id) then (s, Threw(NotFound))
    else
      var d := s.drafts[id];
      if d.status != Verified || d.verification.None? then (s, Threw(Conflict))
      else
        var decision := Decide(env.policy, FactsOf(d));
        var ask := decision.effect == RequireApproval;
        var t := if ask then RequestApproval(s, ctx, id, env.fingerprint(PayloadOf(env, id, d)), now) else s;
        var approvalId := if ask then Some(s.nextId) else None;
        var d' := d.(status := StatusFor(decision.effect), gate := Some(decision), approvalId := approvalId);
        (Log(PutDraft(t, id, d'),
             Event(ctx.tenant, ctx.actor, DraftGated(decision.effect), Some(id), approvalId, now)), Done(id))
  }

  function DecideDraft(s: State, ctx: Ctx, id: Id, grant: bool, now: int): (State, Outcome) {
    if !HasDraft(s, ctx.tenant, id) then (s, Threw(NotFound))
    else
      var d := s.drafts[id];
      if d.status != AwaitingApproval || d.approvalId.None? then (s, Threw(Conflict))
      else
        var k := d.approvalId.value;
        var (t, error) := DecideApproval(s, ctx, k, grant, Contributors(s, ctx.tenant, id), now);
        if error.Some? then (t, Threw(error.value))
        else
          var d' := d.(status := if grant then Approved else Rejected, reviewer := Some(ctx.actor));
          (Log(PutDraft(t, id, d'), Event(ctx.tenant, ctx.actor, DraftDecided(grant), Some(id), Some(k), now)),
           Done(id))
  }

  /** What `render` hands to the adapter: a manifest exactly when a signing key is configured. */
  function ManifestFor(env: Env, d: Draft, editor: string): Option<Manifest> {
    if env.hasSigningKey
    then Some(Manifest(env.sha(d.body), d.aiAssisted, editor, d.approvalId,
                       if d.approvalId.Some? then d.reviewer else None))
    else None
  }

  predicate MarkingMissing(env: Env, d: Draft) {
    d.gate.Some? && d.gate.value.requiresMarking && !env.hasSigningKey
  }

  /** Editorial responsibility as given to `publish`; `blank` says that a trimmed name or role is empty. */
  datatype Editorial = Editorial(name: string, role: string, blank: bool)

  /**
    `publish`: check the approval at `start`, call the adapter, consume the approval at `finish`.
    The adapter's outcome is an input. If the approval lapses while the adapter runs, `consume` throws
    and the publication row stays in flight.
   */
  function PublishDraft(s: State, env: Env, ctx: Ctx, id: Id, target: string, editorial: Editorial,
                        start: int, adapterOk: bool, finish: int): (State, Outcome) {
    if !HasDraft(s, ctx.tenant, id) then (s, Threw(NotFound))
    else
      var d := s.drafts[id];
      if d.status != Approved then (s, Threw(ApprovalRequired))
      else if target !in env.targets then (s, Threw(NotFound))
      else if MarkingMissing(env, d) then (s, Threw(PolicyDenied))
      else if editorial.blank then (s, Threw(Validation))
      else
        var hash := env.fingerprint(PayloadOf(env, id, d));
        var (t, invalid) :=
          if d.approvalId.Some? then AssertValid(s, ctx.tenant, d.approvalId.value, hash, start) else (s, None);
        if invalid.Some? then (t, Threw(invalid.value))
        else
          var p := t.nextId;
          var row := Publication(ctx.tenant, id, target, InFlight, d.body, env.sha(d.body),
                                 ManifestFor(env, d, editorial.name));
          var u := PutPublication(t, p, row).(nextId := p + 1);
          if !adapterOk then
            (Log(PutPublication(u, p, row.(status := FailedToPublish)),
                 Event(ctx.tenant, ctx.actor, DraftPublishFailed, Some(id), None, finish)), Threw(AdapterFailed))
          else
            var (v, lapsed) :=
              if d.approvalId.Some? then ConsumeApproval(u, ctx, d.approvalId.value, hash, finish) else (u, None);
            if lapsed.Some? then (v, Threw(lapsed.value))
            else
              var done := DraftPublished(env.sha(d.body), d.reviewer);
              (Log(PutDraft(PutPublication(v, p, row.(status := Live)), id,
                            d.(status := Published, publishedAt := Some(finish))),
                   Event(ctx.tenant, ctx.actor, done, Some(id), d.approvalId, finish)), Done(p))
  }

  /** `applyRetention`'s bulk expiry of one tenant's open approvals. */
  function ExpireApprovals(s: State, ctx: Ctx, now: int): State {
    Log(s.(approvals := map k | k in s.approvals ::
                          if s.approvals[k].tenant == ctx.tenant && Stale(s.approvals[k], now)
                          then s.approvals[k].(status := Expired) else s.approvals[k]),
        Event(ctx.tenant, ctx.actor, RetentionApplied, None, None, now))
  }

  // ---------- runs ----------

  datatype Op =
    | Create(ctx: Ctx, input: NewDraft, now: int)
    | Update(ctx: Ctx, id: Id, changes: Changes, now: int)
    | Verify(ctx: Ctx, id: Id, now: int)
    | Gate(ctx: Ctx, id: Id, now: int)
    | DecideOn(ctx: Ctx, id: Id, grant: bool, now: int)
    | Publish(ctx: Ctx, id: Id, target: string, editorial: Editorial, now: int, adapterOk: bool, finish: int)
    | Retention(ctx: Ctx, now: int)

  function Step(env: Env, s: State, op: Op): State {
    match op
    case Create(ctx, input, now) => CreateDraft(s, ctx, input, now).0
    case Update(ctx, id, changes, now) => UpdateDraft(s, ctx, id, changes, now).0
    case Verify(ctx, id, now) => VerifyDraft(s, env, ctx, id, now).0
    case Gate(ctx, id, now) => GateDraft(s, env, ctx, id, now).0
    case DecideOn(ctx, id, grant, now) => DecideDraft(s, ctx, id, grant, now).0
    case Publish(ctx, id, target, editorial, now, ok, finish) =>
      PublishDraft(s, env, ctx, id, target, editorial, now, ok, finish).0
    case Retention(ctx, now) => ExpireApprovals(s, ctx, now)
  }

  function Run(env: Env, s: State, ops: seq<Op>): State
    decreases |ops|
  {
    if ops == [] then s else Run(env, Step(env, s, ops[0]), ops[1..])
  }
}
