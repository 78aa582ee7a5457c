/**
  `ApprovalService` and `ContentPipeline` in the form they are written in: services that issue one statement
  after another against shared tables. Each method is tied to the operation of `PipelineModel` it performs.
 */
module PipelineService {
  import opened Basics
  import opened PublicationPolicy
  import opened PipelineModel
  import PipelineEffects

  /** The tables the two services share. */
  class Tables {
    var drafts: map<Id, Draft>
    var approvals: map<Id, Approval>
    var publications: map<Id, Publication>
    var events: seq<Event>
    var nextId: Id

    constructor ()
      ensures View() == EMPTY
    {
      drafts, approvals, publications, events, nextId := map[], map[], map[], [], 0;
    }

    function View(): State
      reads this
    {
      State(drafts, approvals, publications, events, nextId)
    }

    method NewId() returns (id: Id)
      modifies this`nextId
      ensures id == old(nextId) && nextId == id + 1
    {
      id := nextId;
      nextId := nextId + 1;
    }

    method Append(e: Event)
      modifies this`events
      ensures View() == Log(old(View()), e)
    {
      events := events + [e];
    }
  }

  class ApprovalService {
    const db: Tables

    constructor (db: Tables)
      ensures this.db == db
    {
      this.db := db;
    }

    method Request(ctx: Ctx, draft: Id, payloadHash: string, now: int) returns (id: Id)
      modifies db
      ensures db.View() == RequestApproval(old(db.View()), ctx, draft, payloadHash, now)
      ensures id == old(db.nextId)
    {
      id := db.NewId();
      db.approvals := db.approvals[id := Approval(ctx.tenant, draft, ctx.actor, now, Pending, None, payloadHash)];
      db.Append(Event(ctx.tenant, ctx.actor, ApprovalRequested(payloadHash), Some(draft), Some(id), now));
    }

    method Expire(id: Id, now: int) returns (current: Approval)
      requires id in db.approvals
      modifies db`approvals
      ensures db.View() == ExpireIfStale(old(db.View()), id, now)
      ensures id in db.approvals && current == db.approvals[id]
    {
      current := db.approvals[id];
      if (current.status == Pending || current.status == Granted) && now - current.requestedAt > VALIDITY {
        current := current.(status := Expired);
        db.approvals := db.approvals[id := current];
      }
    }

    method Decide(ctx: Ctx, id: Id, grant: bool, excluded: set<string>, now: int) returns (error: Option<Error>)
      modifies db
      ensures (db.View(), error) == DecideApproval(old(db.View()), ctx, id, grant, excluded, now)
    {
      if id !in db.approvals || db.approvals[id].tenant != ctx.tenant {
        return Some(NotFound);
      }
      var current := Expire(id, now);
      if current.status != Pending {
        return Some(Conflict);
      }
      if ctx.actor in excluded + {current.requestedBy} {
        return Some(PolicyDenied);
      }
      db.approvals := db.approvals[id := current.(status := if grant then Granted else Refused,
                                                  decidedBy := Some(ctx.actor))];
      db.Append(Event(ctx.tenant, ctx.actor, ApprovalDecided(grant), Some(current.draft), Some(id), now));
      return None;
    }

    method CheckValid(tenant: Name, id: Id, payloadHash: string, now: int) returns (error: Option<Error>)
      modifies db`approvals
      ensures (db.View(), error) == AssertValid(old(db.View()), tenant, id, payloadHash, now)
    {
      if id !in db.approvals || db.approvals[id].tenant != tenant {
        return Some(NotFound);
      }
      var current := Expire(id, now);
      if current.status != Granted {
        return Some(ApprovalRequired);
      }
      if payloadHash != current.payloadHash {
        return Some(ApprovalRequired);
      }
      return None;
    }

    method Consume(ctx: Ctx, id: Id, payloadHash: string, now: int) returns (error: Option<Error>)
      modifies db
      ensures (db.View(), error) == ConsumeApproval(old(db.View()), ctx, id, payloadHash, now)
    {
      error := CheckValid(ctx.tenant, id, payloadHash, now);
      if error.Some? {
        return;
      }
      var current := db.approvals[id];
      db.approvals := db.approvals[id := current.(status := Consumed)];
      db.Append(Event(ctx.tenant, ctx.actor, ApprovalConsumed, Some(current.draft), Some(id), now));
    }
  }

  class ContentPipeline {
    const db: Tables
    const approvals: ApprovalService
    const env: Env

    constructor (db: Tables, approvals: ApprovalService, env: Env)
      requires approvals.db == db
      ensures this.db == db && this.approvals == approvals && this.env == env && Wired()
    {
      this.db, this.approvals, this.env := db, approvals, env;
    }

    predicate Wired() {
      approvals.db == db
    }

    method Create(ctx: Ctx, input: NewDraft, now: int) returns (out: Outcome)
      modifies db
      ensures (db.View(), out) == CreateDraft(old(db.View()), ctx, input, now)
    {
      if !ValidSlug(input.slug) {
        return Threw(Validation);
      }
      if exists x :: x in db.drafts && db.drafts[x].tenant == ctx.tenant && db.drafts[x].slug == input.slug {
        return Threw(SlugTaken);
      }
      var id := db.NewId();
      var source := if input.readiness.Some? then TargetPage else NoReadiness;
      db.drafts := db.drafts[id := Draft(ctx.tenant, input.title, input.slug, input.body, Drafting,
                                         OrElse(input.author, ctx.actor), None, input.aiAssisted, input.evidence,
                                         input.topics, input.sourceKinds, None, input.readiness, source,
                                         None, None, None)];
      db.Append(Event(ctx.tenant, ctx.actor, DraftCreated, Some(id), None, now));
      return Done(id);
    }

    method Update(ctx: Ctx, id: Id, c: Changes, now: int) returns (out: Outcome)
      modifies db
      ensures (db.View(), out) == UpdateDraft(old(db.View()), ctx, id, c, now)
    {
      if id !in db.drafts || db.drafts[id].tenant != ctx.tenant {
        return Threw(NotFound);
      }
      var d := db.drafts[id];
      if d.status == Published {
        return Threw(Conflict);
      }
      var keepTarget := d.readinessSource == TargetPage;
      d := d.(title := OrElse(c.title, d.title), body := OrElse(c.body, d.body),
              evidence := OrElse(c.evidence, d.evidence), aiAssisted := OrElse(c.aiAssisted, d.aiAssisted));
      d := d.(verification := None, status := Drafting, gate := None, approvalId := None);
      if !keepTarget {
        d := d.(readiness := None, readinessSource := NoReadiness);
      }
      db.drafts := db.drafts[id := d];
      db.Append(Event(ctx.tenant, ctx.actor, DraftUpdated, Some(id), None, now));
      return Done(id);
    }

    method Verify(ctx: Ctx, id: Id, now: int) returns (out: Outcome)
      modifies db
      ensures (db.View(), out) == VerifyDraft(old(db.View()), env, ctx, id, now)
    {
      if id !in db.drafts || db.drafts[id].tenant != ctx.tenant {
        return Threw(NotFound);
      }
      var d := db.drafts[id];
      if d.status == Published {
        return Threw(Conflict);
      }
      var report := env.verifyDraft(d.body, d.evidence);
      var score, source := d.readiness, d.readinessSource;
      if source != TargetPage {
        score, source := Some(env.readiness(d)), RenderedArtefact;
      }
      db.drafts := db.drafts[id := d.(verification := Some(report), readiness := score, readinessSource := source,
                                      status := Verified, gate := None, approvalId := None)];
      db.Append(Event(ctx.tenant, ctx.actor, DraftVerified, Some(id), None, now));
      return Done(id);
    }

    method Gate(ctx: Ctx, id: Id, now: int) returns (out: Outcome)
      requires Wired()
      modifies db
      ensures (db.View(), out) == GateDraft(old(db.View()), env, ctx, id, now)
    {
      if id !in db.drafts || db.drafts[id].tenant != ctx.tenant {
        return Threw(NotFound);
      }
      var d := db.drafts[id];
      if d.status != Verified || d.verification.None? {
        return Threw(Conflict);
      }
      var decision := EvaluatePublication(env.policy, FactsOf(d));
      var status, approvalId := Approved, None;
      if decision.effect == Deny {
        status := BlockedByPolicy;
      } else if decision.effect == RequireApproval {
        var k := approvals.Request(ctx, id, env.fingerprint(PayloadOf(env, id, d)), now);
        approvalId := Some(k);
        status := AwaitingApproval;
      }
      db.drafts := db.drafts[id := d.(status := status, gate := Some(decision), approvalId := approvalId)];
      db.Append(Event(ctx.tenant, ctx.actor, DraftGated(decision.effect), Some(id), approvalId, now));
      return Done(id);
    }

    method DecideOn(ctx: Ctx, id: Id, grant: bool, now: int) returns (out: Outcome)
      requires Wired()
      modifies db
      ensures (db.View(), out) == DecideDraft(old(db.View()), ctx, id, grant, now)
    {
      if id !in db.drafts || db.drafts[id].tenant != ctx.tenant {
        return Threw(NotFound);
      }
      var d := db.drafts[id];
      if d.status != AwaitingApproval || d.approvalId.None? {
        return Threw(Conflict);
      }
      var people := ReadContributors(ctx.tenant, id);
      var error := approvals.Decide(ctx, d.approvalId.value, grant, people, now);
      if error.Some? {
        return Threw(error.value);
      }
      var status := if grant then Approved else Rejected;
      db.drafts := db.drafts[id := d.(status := status, reviewer := Some(ctx.actor))];
      db.Append(Event(ctx.tenant, ctx.actor, DraftDecided(grant), Some(id), d.approvalId, now));
      return Done(id);
    }

    /** Walks the draft's events up to the read limit and collects who created or edited it. */
    method ReadContributors(tenant: Name, id: Id) returns (people: set<string>)
      requires id in db.drafts
      ensures people == Contributors(db.View(), tenant, id)
    {
      people := if db.drafts[id].author == "" then {} else {db.drafts[id].author};
      var rows := First(EVENT_LIMIT, DraftEvents(db.events, tenant, id));
      for i := 0 to |rows|
        invariant people == (if db.drafts[id].author == "" then {} else {db.drafts[id].author}) + Editors(rows[..i])
      {
        assert rows[..i + 1] == rows[..i] + [rows[i]];
        if rows[i].action == DraftCreated || rows[i].action == DraftUpdated {
          people := people + {rows[i].actor};
        }
      }
      assert rows[..|rows|] == rows;
    }

    method Publish(ctx: Ctx, id: Id, target: string, editorial: Editorial, start: int, adapterOk: bool, finish: int)
        returns (out: Outcome)
      requires Wired()
      modifies db
      ensures (db.View(), out)
           == PublishDraft(old(db.View()), env, ctx, id, target, editorial, start, adapterOk, finish)
      ensures !PipelineEffects.MayCallAdapter(old(db.View()), env, ctx, id, target, editorial, start) ==>
                out.Threw? && db.publications == old(db.publications) && db.events == old(db.events)
    {
      hide PayloadOf, ManifestFor, PipelineEffects.MayCallAdapter;
      if !PipelineEffects.MayCallAdapter(db.View(), env, ctx, id, target, editorial, start) {
        PipelineEffects.NoRowWithoutChecks(db.View(), env, ctx, id, target, editorial, start, adapterOk, finish);
      }
      if id !in db.drafts || db.drafts[id].tenant != ctx.tenant {
        return Threw(NotFound);
      }
      var d := db.drafts[id];
      if d.status != Approved {
        return Threw(ApprovalRequired);
      }
      if target !in env.targets {
        return Threw(NotFound);
      }
      if d.gate.Some? && d.gate.value.requiresMarking && !env.hasSigningKey {
        return Threw(PolicyDenied);
      }
      if editorial.blank {
        return Threw(Validation);
      }
      var hash := env.fingerprint(PayloadOf(env, id, d));
      if d.approvalId.Some? {
        var invalid := approvals.CheckValid(ctx.tenant, d.approvalId.value, hash, start);
        if invalid.Some? {
          return Threw(invalid.value);
        }
      }
      var manifest := ManifestFor(env, d, editorial.name);
      var p := db.NewId();
      var row := Publication(ctx.tenant, id, target, InFlight, d.body, env.sha(d.body), manifest);
      db.publications := db.publications[p := row];
      if !adapterOk {
        db.publications := db.publications[p := row.(status := FailedToPublish)];
        db.Append(Event(ctx.tenant, ctx.actor, DraftPublishFailed, Some(id), None, finish));
        return Threw(AdapterFailed);
      }
      if d.approvalId.Some? {
        var lapsed := approvals.Consume(ctx, d.approvalId.value, hash, finish);
        if lapsed.Some? {
          return Threw(lapsed.value);
        }
      }
      db.publications := db.publications[p := row.(status := Live)];
      db.drafts := db.drafts[id := d.(status := Published, publishedAt := Some(finish))];
      db.Append(Event(ctx.tenant, ctx.actor, DraftPublished(env.sha(d.body), d.reviewer), Some(id), d.approvalId,
                      finish));
      return Done(p);
    }
  }

  /** The retention job's UPDATE of the tenant's stale approvals, and its event. */
  method ExpireStaleApprovals(db: Tables, ctx: Ctx, now: int)
    modifies db
    ensures db.View() == ExpireApprovals(old(db.View()), ctx, now)
  {
    db.approvals := map k | k in db.approvals ::
      if db.approvals[k].tenant == ctx.tenant && db.approvals[k].status in {Pending, Granted}
         && db.approvals[k].requestedAt < now - VALIDITY
      then db.approvals[k].(status := Expired)
      else db.approvals[k];
    db.Append(Event(ctx.tenant, ctx.actor, RetentionApplied, None, None, now));
  }
}
