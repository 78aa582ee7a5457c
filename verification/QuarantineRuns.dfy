/** Quarantine and release of an ingested document, over whole runs in which no redaction finds anything in it. */
module QuarantineRuns {
  import opened Basics
  import opened Rows
  import opened KnowledgeModel
  import opened KnowledgeInvariant
  import opened KnowledgeSteps
  import opened QuarantineRelease
  import Isolation = TenantIsolation

  /** The document's rows: its chunks, its claims, its mentions, and whose it is and whether it is held. */
  predicate Untouched(s: Store, t: Store, d: Id)
    requires d in s.documents && d in t.documents
  {
    && t.documents[d] == s.documents[d]
    && ChunksOf(t, d) == ChunksOf(s, d)
    && ClaimsOfDocument(t, d) == ClaimsOfDocument(s, d)
    && MentionsOfDocument(t, d) == MentionsOfDocument(s, d)
  }

  /** If the document is still there it has these chunks, and is as ingested, or held and owns nothing. */
  predicate Tracked(s: Store, env: Env, tenant: Name, d: Id, chunks: seq<Chunk>) {
    && d < s.nextId
    && (d in s.documents ==>
          && s.documents[d].tenant == tenant
          && ChunksOf(s, d) == chunks
          && if s.documents[d].quarantine
             then ClaimsOfDocument(s, d) == [] && MentionsOfDocument(s, d) == {}
             else AsIngested(s, env, d))
  }

  lemma UntouchedIsTracked(s: Store, t: Store, env: Env, tenant: Name, d: Id, chunks: seq<Chunk>)
    requires Tracked(s, env, tenant, d, chunks) && s.nextId <= t.nextId
    requires d in t.documents ==> d in s.documents && Untouched(s, t, d)
    ensures Tracked(t, env, tenant, d, chunks)
  {
    hide ChunksOf, ClaimsOfDocument, MentionsOfDocument;
  }

  // ---------- deleting other documents ----------

  lemma DeletingOthers(s: Store, ds: set<Id>, d: Id)
    requires Inv(s) && d in s.documents && d !in ds
    ensures var t := DeleteDocuments(s, ds); d in t.documents && Untouched(s, t, d)
  {
    PartsOf(s);
    hide Inv, Distinct;
    var ids := ChunkIds(Keep(s.chunks, OfDocuments(ds)));
    IdsOfKept(s.chunks, ds);
    KeepTwice(s.chunks, NotOfDocuments(ds), OfDocuments({d}), OfDocuments({d}));
    KeepIn(s.chunks, OfDocuments({d}));
    hide Keep, ChunkIds;
    ClaimsOutside(s, ids, d);
    KeepTwice(s.claims, ClaimOutside(ids), ClaimOfDocument(d), ClaimOfDocument(d));
    MentionsOutside(s, DeleteDocuments(s, ds), ids, d);
  }

  lemma PartsOf(s: Store)
    requires Inv(s)
    ensures KeysOk(s) && ChunksOk(s) && ClaimsOk(s) && MentionsOk(s) && Distinct(s.chunks)
  {}

  /** Claims of the document belong to its chunks, so they are outside when its chunks are. */
  lemma ClaimsOutside(s: Store, ids: set<Id>, d: Id)
    requires ClaimsOk(s) && forall c :: c in s.chunks && c.documentId == d ==> c.id !in ids
    ensures forall k :: k in s.claims && k.documentId == d ==> k.chunkId !in ids
  {
    forall k | k in s.claims && k.documentId == d ensures k.chunkId !in ids {
      var c :| c in s.chunks && OwnsClaim(c, k);
    }
  }

  lemma MentionsOutside(s: Store, t: Store, ids: set<Id>, d: Id)
    requires ChunksOf(t, d) == ChunksOf(s, d) && t.mentions == set m | m in s.mentions && m.chunkId !in ids
    requires forall c :: c in ChunksOf(s, d) ==> c.id !in ids
    ensures MentionsOfDocument(t, d) == MentionsOfDocument(s, d)
  {
    hide Keep;
  }

  // ---------- mining other documents ----------

  /** Adding chunks, claims and mentions of other documents. */
  lemma AddingOthers(s: Store, t: Store, env: Env, chunks: seq<Chunk>, mined: seq<Chunk>, d: Id, e: Id)
    requires d in s.documents && d in t.documents && t.documents[d] == s.documents[d] && e != d
    requires forall c :: c in chunks + mined ==> c.documentId == e
    requires t.chunks == s.chunks + chunks
    requires t.claims == s.claims + AllClaims(env, mined)
    requires t.mentions == s.mentions + AllMentions(env, mined)
    requires forall c, b :: c in mined && b in ChunksOf(s, d) ==> c.id != b.id
    ensures Untouched(s, t, d)
  {
    KeepConcat(s.chunks, chunks, OfDocuments({d}));
    KeepNone(chunks, OfDocuments({d}));
    assert ChunksOf(t, d) == ChunksOf(s, d);
    MinedClaimsOf(env, mined, e);
    KeepConcat(s.claims, AllClaims(env, mined), ClaimOfDocument(d));
    KeepNone(AllClaims(env, mined), ClaimOfDocument(d));
    MinedMentionIds(env, mined);
    hide Keep, AllClaims, AllMentions;
    forall m | m in AllMentions(env, mined) ensures m.chunkId !in ChunkIds(ChunksOf(s, d)) {
      var c :| c in mined && c.id == m.chunkId;
    }
  }

  // ---------- one operation ----------

  lemma IngestTracks(s: Store, env: Env, tenant: Name, source: Id, content: string, flagged: bool, d: Id)
    requires Inv(s) && d < s.nextId
    ensures var t := Ingest(s, env, tenant, source, content, flagged).0;
            && s.nextId <= t.nextId
            && (d in t.documents ==> d in s.documents && Untouched(s, t, d))
  {
    hide Inv, DeleteDocuments, Mine, IsInsertion, NewDocument, NewChunks, Untouched, Ingest;
    if HasSource(s, tenant, source) && !AlreadyIngested(s, source, tenant, env.sha(content)) {
      var cleared, inserted, chunks := IngestInserts(s, env, tenant, source, content, flagged);
      var ds := Superseded(s, tenant, source);
      NextIdUntouched(s, ds);
      DeleteKeeps(s, ds);
      DeletedDocuments(s, ds);
      InsertionTracks(s, cleared, inserted, env, tenant, source, NewDocument(env, tenant, source, content, flagged),
                      chunks, ds, d);
    } else {
      NothingTouched(s, env, tenant, source, content, flagged, d);
    }
  }

  lemma NothingTouched(s: Store, env: Env, tenant: Name, source: Id, content: string, flagged: bool, d: Id)
    requires !HasSource(s, tenant, source) || AlreadyIngested(s, source, tenant, env.sha(content))
    ensures Ingest(s, env, tenant, source, content, flagged).0 == s && (d in s.documents ==> Untouched(s, s, d))
  {}

  lemma DeletedDocuments(s: Store, ds: set<Id>)
    ensures DeleteDocuments(s, ds).documents == s.documents - ds
  {}

  lemma InsertionTracks(s: Store, cleared: Store, inserted: Store, env: Env, tenant: Name, source: Id, doc: Document,
                        chunks: seq<Chunk>, ds: set<Id>, d: Id)
    requires Inv(s) && Inv(cleared) && cleared == DeleteDocuments(s, ds) && cleared.nextId == s.nextId && d < s.nextId
    requires cleared.documents == s.documents - ds && IsInsertion(cleared, inserted, tenant, source, doc, chunks)
    ensures forall t :: t in {inserted, Mine(inserted, env, chunks)} ==>
              s.nextId <= t.nextId && (d in t.documents ==> d in s.documents && Untouched(s, t, d))
  {
    var mined := Mine(inserted, env, chunks);
    var none: seq<Chunk> := [];
    MinesNothing(env);
    FreshChunks(cleared, inserted, tenant, source, doc, chunks, d);
    hide Inv, DeleteDocuments, AllClaims, AllMentions, MineEntities, Untouched, ChunksOf;
    if d in inserted.documents {
      DeletingOthers(s, ds, d);
      assert inserted.claims == cleared.claims + [] && inserted.mentions == cleared.mentions + {};
      AddingOthers(cleared, inserted, env, chunks, none, d, cleared.nextId);
      AddingOthers(cleared, mined, env, chunks, chunks, d, cleared.nextId);
      UntouchedTransitive(s, cleared, inserted, d);
      UntouchedTransitive(s, cleared, mined, d);
    }
  }

  lemma MinesNothing(env: Env)
    ensures AllClaims(env, []) == [] && AllMentions(env, []) == {}
  {}

  lemma UntouchedTransitive(s: Store, t: Store, u: Store, d: Id)
    requires d in s.documents && d in t.documents && d in u.documents && Untouched(s, t, d) && Untouched(t, u, d)
    ensures Untouched(s, u, d)
  {
    hide ChunksOf, ClaimsOfDocument, MentionsOfDocument;
  }

  lemma FreshChunks(s: Store, t: Store, tenant: Name, source: Id, doc: Document, chunks: seq<Chunk>, d: Id)
    requires Inv(s) && IsInsertion(s, t, tenant, source, doc, chunks)
    ensures forall c :: c in chunks ==> c.documentId == s.nextId
    ensures forall c, b :: c in chunks && b in ChunksOf(s, d) ==> c.id != b.id
  {
    PartsOf(s);
    KeepIn(s.chunks, OfDocuments({d}));
    hide Inv, Keep, Distinct, Each;
    forall c, b | c in chunks && b in ChunksOf(s, d) ensures c.id != b.id {
      assert b.id < s.nextId;
    }
  }

  /** Marking another document and dropping its claims. */
  lemma OtherMarked(s: Store, e: Id, hold: bool, d: Id)
    requires d in s.documents && e in s.documents && e != d
    ensures var marked := s.(documents := s.documents[e := s.documents[e].(quarantine := hold)]);
            && Untouched(s, marked, d)
            && Untouched(s, marked.(claims := Keep(s.claims, ClaimNotOfDocument(e))), d)
  {
    KeepTwice(s.claims, ClaimNotOfDocument(e), ClaimOfDocument(d), ClaimOfDocument(d));
    hide Keep, Untouched;
    var marked := s.(documents := s.documents[e := s.documents[e].(quarantine := hold)]);
    SameTables(s, marked, d);
    SameTables(s, marked.(claims := Keep(s.claims, ClaimNotOfDocument(e))), d);
  }

  /** Holding or releasing another document. */
  lemma OtherQuarantine(s: Store, env: Env, tenant: Name, e: Id, hold: bool, d: Id)
    requires Inv(s) && d in s.documents && e != d
    ensures var t := SetQuarantine(s, env, tenant, e, hold).0; d in t.documents && Untouched(s, t, d)
  {
    hide Inv, Distinct, Keep, ChunkIds, AllClaims, AllMentions, MineEntities, Untouched;
    if HasDocument(s, tenant, e) {
      OtherMarked(s, e, hold, d);
      PartsOf(s);
      OwnIdsDiffer(s, d, e);
      var own := Keep(s.chunks, OfDocuments({e}));
      KeepIn(s.chunks, OfDocuments({e}));
      var was := s.documents[e].quarantine;
      var marked := s.(documents := s.documents[e := s.documents[e].(quarantine := hold)]);
      var dropped := marked.(claims := Keep(s.claims, ClaimNotOfDocument(e)));
      var t := SetQuarantine(s, env, tenant, e, hold).0;
      if !hold && was {
        assert dropped.chunks + [] == dropped.chunks;
        AddingOthers(dropped, t, env, [], own, d, e);
        UntouchedTransitive(s, dropped, t, d);
      } else if hold && !was {
        MentionsOutside(dropped, t, ChunkIds(own), d);
        SameTablesExceptMentions(dropped, t, d);
        UntouchedTransitive(s, dropped, t, d);
      }
    } else {
      SameTables(s, s, d);
    }
  }

  lemma SameTables(s: Store, t: Store, d: Id)
    requires d in s.documents && d in t.documents && t.documents[d] == s.documents[d]
    requires t.chunks == s.chunks && t.mentions == s.mentions
    requires Keep(t.claims, ClaimOfDocument(d)) == Keep(s.claims, ClaimOfDocument(d))
    ensures Untouched(s, t, d)
  {}

  lemma SameTablesExceptMentions(s: Store, t: Store, d: Id)
    requires d in s.documents && d in t.documents && t.documents[d] == s.documents[d]
    requires t.chunks == s.chunks && t.claims == s.claims && MentionsOfDocument(t, d) == MentionsOfDocument(s, d)
    ensures Untouched(s, t, d)
  {}

  lemma OwnIdsDiffer(s: Store, d: Id, e: Id)
    requires Distinct(s.chunks) && d != e
    ensures forall c, b :: c in ChunksOf(s, e) && b in ChunksOf(s, d) ==> c.id != b.id
    ensures forall b :: b in ChunksOf(s, d) ==> b.id !in ChunkIds(ChunksOf(s, e))
  {
    KeepIn(s.chunks, OfDocuments({d}));
    KeepIn(s.chunks, OfDocuments({e}));
    DistinctUnique(s.chunks);
    hide Keep, Distinct;
  }

  /** Holding or releasing the document itself. */
  lemma OwnQuarantine(s: Store, env: Env, tenant: Name, d: Id, hold: bool, chunks: seq<Chunk>)
    requires Inv(s) && Tracked(s, env, tenant, d, chunks) && HasDocument(s, tenant, d)
    ensures Tracked(SetQuarantine(s, env, tenant, d, hold).0, env, tenant, d, chunks)
  {
    var was := s.documents[d].quarantine;
    if hold && !was {
      HoldRemoves(s, env, tenant, d);
    } else if !hold && was {
      ReleaseMines(s, env, tenant, d);
    }
    hide Inv, Keep, AllClaims, AllMentions, MineEntities, ChunkIds;
    var t := SetQuarantine(s, env, tenant, d, hold).0;
    assert d in t.documents && t.documents[d] == s.documents[d].(quarantine := hold) && t.nextId == s.nextId;
    assert ChunksOf(t, d) == ChunksOf(s, d);
    if hold == was {
      SameTables(s, t, d);
    }
  }

  lemma RemoveTracks(s: Store, env: Env, tenant: Name, source: Id, d: Id)
    requires Inv(s)
    ensures var t := DeleteSource(s, tenant, source).0;
            s.nextId <= t.nextId && (d in t.documents ==> d in s.documents && Untouched(s, t, d))
  {
    var ds := DocumentsOf(s, source);
    DeletedDocuments(s, ds);
    NextIdUntouched(s, ds);
    hide Inv, DeleteDocuments, Untouched;
    if d in s.documents {
      SameTables(s, s, d);
      if HasSource(s, tenant, source) && d !in ds {
        DeletingOthers(s, ds, d);
        var cleared := DeleteDocuments(s, ds);
        SameTables(cleared, cleared.(sources := cleared.sources - {source}), d);
        UntouchedTransitive(s, cleared, cleared.(sources := cleared.sources - {source}), d);
      }
    }
  }

  lemma AddTracks(s: Store, tenant: Name, locator: string, title: Option<string>, owner: Option<string>, d: Id)
    ensures var t := AddSource(s, tenant, locator, title, owner);
            s.nextId <= t.nextId && t.documents == s.documents && (d in s.documents ==> Untouched(s, t, d))
  {
    hide Keep, ChunkIds;
  }

  // ---------- operations of other tenants ----------

  lemma OthersTrack(s: Store, t: Store, tenant: Name, d: Id)
    requires Inv(s) && Inv(t) && Isolation.SameFor(tenant, s, t)
    requires d in s.documents && s.documents[d].tenant == tenant
    ensures d in t.documents && Untouched(s, t, d)
  {
    assert d in t.documents && t.documents[d] == s.documents[d];
    OwnRows(s, d);
    OwnRows(t, d);
    hide Inv, Keep, ChunkIds, Isolation.SameRecords;
    forall m ensures m in MentionsOfDocument(s, d) <==> m in MentionsOfDocument(t, d) {
    }
  }

  /** A document's rows are among its tenant's rows. */
  lemma OwnRows(s: Store, d: Id)
    requires Inv(s) && d in s.documents
    ensures var u := s.documents[d].tenant;
            && ChunksOf(s, d) == Keep(Keep(s.chunks, Isolation.ChunkIn(u)), OfDocuments({d}))
            && ClaimsOfDocument(s, d) == Keep(Keep(s.claims, Isolation.ClaimIn(u)), ClaimOfDocument(d))
            && forall m :: m in MentionsOfDocument(s, d) ==> m.entity.tenant == u
  {
    var u := s.documents[d].tenant;
    PartsOf(s);
    Isolation.ClaimsOfDocument(s, d);
    KeepIn(s.chunks, OfDocuments({d}));
    DistinctUnique(s.chunks);
    hide Inv, Distinct, Keep;
    forall c | c in s.chunks && c.documentId == d ensures c.tenant == u {
      assert HasDocument(s, c.tenant, c.documentId);
    }
    KeepTwice(s.chunks, Isolation.ChunkIn(u), OfDocuments({d}), OfDocuments({d}));
    KeepTwice(s.claims, Isolation.ClaimIn(u), ClaimOfDocument(d), ClaimOfDocument(d));
    forall m | m in MentionsOfDocument(s, d) ensures m.entity.tenant == u {
      var c :| c in s.chunks && OwnsMention(c, m);
      var b :| b in ChunksOf(s, d) && b.id == m.chunkId;
      assert c == b;
    }
  }

  // ---------- redaction of something else ----------

  /** The term is found in a chunk, in a claim or in an entity of the document. */
  predicate FoundIn(s: Store, env: Env, tenant: Name, term: string, d: Id) {
    || (exists c :: c in ChunksOf(s, d) && ChunkHit(env, tenant, term, c))
    || (exists k :: k in ClaimsOfDocument(s, d) && ClaimHit(env, tenant, term, k))
    || (exists m :: m in MentionsOfDocument(s, d) && m.entity in s.entities
                    && EntityHit(env, tenant, term, m.entity, s.entities[m.entity]))
  }

  lemma EachSame<A>(rows: seq<A>, f: A -> A)
    requires forall x :: x in rows ==> f(x) == x
    ensures Each(rows, f) == rows
  {
    assert forall i :: 0 <= i < |rows| ==> rows[i] in rows;
  }

  lemma RedactKeepsChunks(s: Store, env: Env, tenant: Name, term: string, replacement: string, d: Id)
    requires |term| >= 2 && !FoundIn(s, env, tenant, term, d)
    ensures ChunksOf(RedactTerm(s, env, tenant, term, replacement).0, d) == ChunksOf(s, d)
  {
    var f := ScrubChunk(env, tenant, term, replacement);
    EachKeep(s.chunks, f, OfDocuments({d}), OfDocuments({d}));
    hide Keep, ChunkHit, Scrub, HitDocuments, EntityHit, SourceHit, ClaimHit;
    EachSame(ChunksOf(s, d), f);
  }

  lemma RedactKeepsClaims(s: Store, env: Env, tenant: Name, term: string, replacement: string, d: Id)
    requires |term| >= 2 && !FoundIn(s, env, tenant, term, d)
    ensures ClaimsOfDocument(RedactTerm(s, env, tenant, term, replacement).0, d) == ClaimsOfDocument(s, d)
  {
    var f := ScrubClaim(env, tenant, term, replacement);
    EachKeep(s.claims, f, ClaimOfDocument(d), ClaimOfDocument(d));
    hide Keep, ChunkHit, Scrub, HitDocuments, EntityHit, SourceHit, ClaimHit;
    EachSame(ClaimsOfDocument(s, d), f);
  }

  lemma RedactKeepsMentions(s: Store, env: Env, tenant: Name, term: string, replacement: string, d: Id)
    requires |term| >= 2 && MentionsOk(s) && !FoundIn(s, env, tenant, term, d)
    ensures MentionsOfDocument(RedactTerm(s, env, tenant, term, replacement).0, d) == MentionsOfDocument(s, d)
  {
    RedactKeepsChunks(s, env, tenant, term, replacement, d);
    hide ChunksOf, ChunkHit, Scrub, HitDocuments, EntityHit, SourceHit, ClaimHit, Keep, Each, ChunkIds;
    var t := RedactTerm(s, env, tenant, term, replacement).0;
    forall m | m in MentionsOfDocument(s, d) ensures m in t.mentions {
      assert m.entity in s.entities;
    }
  }

  /** The document may have its title scrubbed; its tenant and whether it is held stay. */
  lemma RedactKeepsDocument(s: Store, env: Env, tenant: Name, term: string, replacement: string)
    requires |term| >= 2
    ensures var t := RedactTerm(s, env, tenant, term, replacement).0;
            && t.nextId == s.nextId && t.documents.Keys == s.documents.Keys
            && forall d :: d in s.documents ==>
                 && t.documents[d].tenant == s.documents[d].tenant
                 && t.documents[d].quarantine == s.documents[d].quarantine
  {
    hide ChunkHit, Scrub, ScrubOption, HitDocuments, EntityHit, SourceHit, ClaimHit, Keep, Each, ChunkIds;
  }

  lemma RedactTracks(s: Store, env: Env, tenant: Name, term: string, replacement: string, d: Id, chunks: seq<Chunk>)
    requires MentionsOk(s) && Tracked(s, env, tenant, d, chunks)
    requires d in s.documents && |term| >= 2 ==> !FoundIn(s, env, tenant, term, d)
    ensures Tracked(RedactTerm(s, env, tenant, term, replacement).0, env, tenant, d, chunks)
  {
    if |term| >= 2 {
      RedactKeepsDocument(s, env, tenant, term, replacement);
      if d in s.documents {
        RedactKeepsChunks(s, env, tenant, term, replacement, d);
        RedactKeepsClaims(s, env, tenant, term, replacement, d);
        RedactKeepsMentions(s, env, tenant, term, replacement, d);
      }
      hide RedactTerm, ChunksOf, ClaimsOfDocument, MentionsOfDocument, FoundIn;
    }
  }

  // ---------- runs ----------

  /** A redaction by the tenant that finds something in the document. */
  predicate RedactsIn(env: Env, s: Store, op: Op, tenant: Name, d: Id) {
    && op.Redact? && op.tenant == tenant && |op.term| >= 2
    && d in s.documents && FoundIn(s, env, tenant, op.term, d)
  }

  /** No step of the run redacts anything in the document. */
  predicate Spares(env: Env, s: Store, ops: seq<Op>, tenant: Name, d: Id)
    decreases |ops|
  {
    ops != [] ==> !RedactsIn(env, s, ops[0], tenant, d) && Spares(env, Step(env, s, ops[0]), ops[1..], tenant, d)
  }

  /** A run without redactions by the tenant spares all its documents. */
  lemma {:induction false} NoRedactionSpares(env: Env, s: Store, ops: seq<Op>, tenant: Name, d: Id)
    requires forall op :: op in ops ==> !(op.Redact? && op.tenant == tenant)
    ensures Spares(env, s, ops, tenant, d)
    decreases |ops|
  {
    hide Step, FoundIn;
    if ops != [] {
      assert ops[0] in ops;
      assert forall op :: op in ops[1..] ==> op in ops;
      NoRedactionSpares(env, Step(env, s, ops[0]), ops[1..], tenant, d);
    }
  }

  lemma StepTracks(env: Env, s: Store, op: Op, tenant: Name, d: Id, chunks: seq<Chunk>)
    requires Inv(s) && EnvOk(env) && Tracked(s, env, tenant, d, chunks) && !RedactsIn(env, s, op, tenant, d)
    ensures Tracked(Step(env, s, op), env, tenant, d, chunks)
  {
    var t := Step(env, s, op);
    DocumentsAreNew(env, s, op);
    if op.tenant != tenant {
      Isolation.StepIsScoped(tenant, env, s, op);
      StepKeeps(env, s, op);
      hide Inv, Step, Untouched;
      if d in s.documents {
        OthersTrack(s, t, tenant, d);
      }
    } else {
      PartsOf(s);
      hide Inv, Untouched, Ingest, DeleteSource, AddSource, SetQuarantine, RedactTerm, FoundIn, MentionsOk, Tracked;
      match op
      case Add(_, locator, title, owner) => AddTracks(s, tenant, locator, title, owner, d);
      case IngestContent(_, source, content, flagged) => IngestTracks(s, env, tenant, source, content, flagged, d);
      case Remove(_, source) => RemoveTracks(s, env, tenant, source, d);
      case Quarantine(_, e, hold) =>
        if e == d && HasDocument(s, tenant, d) {
          OwnQuarantine(s, env, tenant, d, hold, chunks);
        } else if d in s.documents {
          OtherQuarantine(s, env, tenant, e, hold, d);
        }
      case Redact(_, term, replacement) => RedactTracks(s, env, tenant, term, replacement, d, chunks);
      case Erase(_) =>
    }
    hide Inv, Untouched, Step, FoundIn;
    if !(op.tenant == tenant && (op.Redact? || (op.Quarantine? && op.document == d))) {
      UntouchedIsTracked(s, t, env, tenant, d, chunks);
    }
  }

  /** No operation reuses the id of a document that is gone. */
  lemma DocumentsAreNew(env: Env, s: Store, op: Op)
    requires Inv(s)
    ensures s.nextId <= Step(env, s, op).nextId
    ensures forall d :: d in Step(env, s, op).documents && d < s.nextId ==> d in s.documents
  {
    hide Inv, Keep, Each, ChunkIds, AllClaims, AllMentions, MineEntities;
  }

  lemma {:induction false} RunTracks(env: Env, s: Store, ops: seq<Op>, tenant: Name, d: Id, chunks: seq<Chunk>)
    requires Inv(s) && EnvOk(env) && Tracked(s, env, tenant, d, chunks)
    requires Spares(env, s, ops, tenant, d)
    ensures Inv(Run(env, s, ops)) && Tracked(Run(env, s, ops), env, tenant, d, chunks)
    decreases |ops|
  {
    hide Inv, Tracked, Step, RedactsIn;
    if ops != [] {
      StepTracks(env, s, ops[0], tenant, d, chunks);
      StepKeeps(env, s, ops[0]);
      RunTracks(env, Step(env, s, ops[0]), ops[1..], tenant, d, chunks);
    }
  }

  /**
    After a clean ingestion and any operations of any tenants, apart from redactions that find something in its chunks,
    claims or entities, a document that is still there has the chunks of its ingestion and is as ingested, or is held
    and owns no claims and no mentions.
   */
  lemma IngestedStaysAsIngested(env: Env, s: Store, tenant: Name, source: Id, content: string, ops: seq<Op>)
    requires Inv(s) && EnvOk(env) && HasSource(s, tenant, source)
         && !AlreadyIngested(s, source, tenant, env.sha(content))
    requires !env.poisoned(env.extract(content).text)
    requires Spares(env, Ingest(s, env, tenant, source, content, false).0, ops, tenant, s.nextId)
    ensures var d := s.nextId;
            var t := Run(env, Ingest(s, env, tenant, source, content, false).0, ops);
            && Inv(t)
            && (d in t.documents ==>
                  && t.documents[d].tenant == tenant
                  && ChunksOf(t, d) == NewChunks(tenant, d, d + 1, env.extract(content).pieces)
                  && if t.documents[d].quarantine
                     then ClaimsOfDocument(t, d) == [] && MentionsOfDocument(t, d) == {}
                     else AsIngested(t, env, d))
  {
    IngestKeeps(s, env, tenant, source, content, false);
    CleanIngestIsMined(s, env, tenant, source, content, false);
    IngestedDocument(s, env, tenant, source, content);
    var d := s.nextId;
    var chunks := NewChunks(tenant, d, d + 1, env.extract(content).pieces);
    hide Inv, Ingest, NewChunks, Run, ChunksOf, AsIngested, Spares;
    RunTracks(env, Ingest(s, env, tenant, source, content, false).0, ops, tenant, d, chunks);
  }

  lemma IngestedDocument(s: Store, env: Env, tenant: Name, source: Id, content: string)
    requires HasSource(s, tenant, source) && !AlreadyIngested(s, source, tenant, env.sha(content))
    requires !env.poisoned(env.extract(content).text)
    ensures var t := Ingest(s, env, tenant, source, content, false).0;
            HasDocument(t, tenant, s.nextId) && !t.documents[s.nextId].quarantine && s.nextId < t.nextId
  {
    hide Keep, Each, ChunkIds, AllClaims, AllMentions, MineEntities;
  }

  /** So, at any later moment of such a run, holding the document and releasing it again restores everything. */
  lemma HoldThenReleaseOverRuns(env: Env, s: Store, tenant: Name, source: Id, content: string, ops: seq<Op>)
    requires Inv(s) && EnvOk(env) && HasSource(s, tenant, source)
         && !AlreadyIngested(s, source, tenant, env.sha(content))
    requires !env.poisoned(env.extract(content).text)
    requires Spares(env, Ingest(s, env, tenant, source, content, false).0, ops, tenant, s.nextId)
    requires var t := Run(env, Ingest(s, env, tenant, source, content, false).0, ops);
             s.nextId in t.documents && !t.documents[s.nextId].quarantine
    ensures var d := s.nextId;
            var t := Run(env, Ingest(s, env, tenant, source, content, false).0, ops);
            var u := SetQuarantine(SetQuarantine(t, env, tenant, d, true).0, env, tenant, d, false).0;
            && (forall e: Id :: ClaimsOfDocument(u, e) == ClaimsOfDocument(t, e))
            && u.mentions == t.mentions && u.entities.Keys == t.entities.Keys
            && u.chunks == t.chunks && u.fts == t.fts && u.documents == t.documents
  {
    hide Inv, Ingest, Run, SetQuarantine, AsIngested, ClaimsOfDocument, Spares;
    IngestedStaysAsIngested(env, s, tenant, source, content, ops);
    HoldThenReleaseRestores(Run(env, Ingest(s, env, tenant, source, content, false).0, ops), env, tenant, s.nextId);
  }
}
