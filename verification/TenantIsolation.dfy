/** No operation by one tenant changes another tenant's rows, the unscoped orphan sweep included. */
module TenantIsolation {
  import opened Basics
  import opened Redaction
  import opened Rows
  import opened KnowledgeModel
  import opened KnowledgeInvariant
  import opened KnowledgeSteps

  function ChunkIn(u: Name): Chunk -> bool { (c: Chunk) => c.tenant == u }
  function FtsIn(u: Name): FtsRow -> bool { (r: FtsRow) => r.tenant == u }
  function ClaimIn(u: Name): Claim -> bool { (c: Claim) => c.tenant == u }

  predicate SameTables(u: Name, s: Store, t: Store) {
    && Keep(s.chunks, ChunkIn(u)) == Keep(t.chunks, ChunkIn(u))
    && Keep(s.fts, FtsIn(u)) == Keep(t.fts, FtsIn(u))
    && Keep(s.claims, ClaimIn(u)) == Keep(t.claims, ClaimIn(u))
  }

  ghost predicate SameRecords(u: Name, s: Store, t: Store) {
    && (forall x :: (x in s.sources && s.sources[x].tenant == u) || (x in t.sources && t.sources[x].tenant == u) ==>
          x in s.sources && x in t.sources && s.sources[x] == t.sources[x])
    && (forall d :: (d in s.documents && s.documents[d].tenant == u)
                    || (d in t.documents && t.documents[d].tenant == u) ==>
          d in s.documents && d in t.documents && s.documents[d] == t.documents[d])
  }

  ghost predicate SameEntities(u: Name, s: Store, t: Store) {
    && (forall k: EntityKey :: k.tenant == u ==>
          (k in s.entities <==> k in t.entities) && (k in s.entities ==> s.entities[k] == t.entities[k]))
    && (forall m: Mention :: m.entity.tenant == u ==> (m in s.mentions <==> m in t.mentions))
  }

  /** Both stores hold the same rows of tenant `u`, in the same order where tables have one. */
  ghost predicate SameFor(u: Name, s: Store, t: Store) {
    SameTables(u, s, t) && SameRecords(u, s, t) && SameEntities(u, s, t)
  }

  lemma SameForTransitive(u: Name, a: Store, b: Store, c: Store)
    requires SameFor(u, a, b) && SameFor(u, b, c)
    ensures SameFor(u, a, c)
  {
    hide Keep;
  }

  // ---------- deleting documents of another tenant ----------

  /** Full-text rows belong to the tenant of their chunk. */
  lemma FtsRowsHaveChunks(s: Store)
    requires MirrorOk(s)
    ensures forall r :: r in s.fts ==> exists c :: c in s.chunks && r == MirrorRow()(c)
  {
    forall r | r in s.fts ensures exists c :: c in s.chunks && r == MirrorRow()(c) {
      assert r in multiset(s.fts);
      assert r in multiset(Each(s.chunks, MirrorRow()));
      var i :| 0 <= i < |s.chunks| && r == Each(s.chunks, MirrorRow())[i];
      assert s.chunks[i] in s.chunks;
    }
  }

  lemma DeletedChunksAreForeign(u: Name, s: Store, ds: set<Id>)
    requires Distinct(s.chunks) && ChunksOk(s) && forall d :: d in ds && d in s.documents ==> s.documents[d].tenant != u
    ensures ForeignIds(u, s, ds)
  {
    IdsOfKept(s.chunks, ds);
    hide Keep, ChunkIds, Distinct;
    forall c | c in s.chunks && c.documentId in ds ensures c.tenant != u {
      assert HasDocument(s, c.tenant, c.documentId);
    }
  }

  lemma DeleteIsScoped(u: Name, s: Store, ds: set<Id>)
    requires Inv(s) && forall d :: d in ds && d in s.documents ==> s.documents[d].tenant != u
    ensures SameFor(u, s, DeleteDocuments(s, ds))
  {
    hide Keep, ChunkIds, Distinct, MirrorOk, ClaimsOk, MentionsOk, EntitiesOk, ChunksOk, SameTables, SameEntities;
    DeletedChunksAreForeign(u, s, ds);
    DeleteScopedTables(u, s, ds);
    DeleteScopedEntities(u, s, ds);
  }

  predicate ForeignIds(u: Name, s: Store, ds: set<Id>) {
    var ids := ChunkIds(Keep(s.chunks, OfDocuments(ds)));
    forall c :: c in s.chunks ==> (c.id in ids <==> c.documentId in ds) && (c.id in ids ==> c.tenant != u)
  }

  lemma DeleteScopedTables(u: Name, s: Store, ds: set<Id>)
    requires ForeignIds(u, s, ds) && MirrorOk(s) && ClaimsOk(s)
    ensures SameTables(u, s, DeleteDocuments(s, ds))
  {
    var ids := ChunkIds(Keep(s.chunks, OfDocuments(ds)));
    KeepTwice(s.chunks, NotOfDocuments(ds), ChunkIn(u), ChunkIn(u));
    FtsRowsHaveChunks(s);
    KeepTwice(s.fts, FtsOutside(ids), FtsIn(u), FtsIn(u));
    KeepTwice(s.claims, ClaimOutside(ids), ClaimIn(u), ClaimIn(u));
  }

  /** The sweep has no tenant filter, yet removes nothing of `u`: each of its entities is still mentioned. */
  lemma DeleteScopedEntities(u: Name, s: Store, ds: set<Id>)
    requires ForeignIds(u, s, ds) && MentionsOk(s) && EntitiesOk(s)
    ensures SameEntities(u, s, DeleteDocuments(s, ds))
  {
    hide Keep, ChunkIds;
    var t := DeleteDocuments(s, ds);
    forall m: Mention | m.entity.tenant == u && m in s.mentions ensures m in t.mentions {
      var c :| c in s.chunks && OwnsMention(c, m);
    }
    forall k: EntityKey | k.tenant == u && k in s.entities ensures k in t.entities {
      var m :| m in s.mentions && m.entity == k;
      assert m in t.mentions;
    }
  }

  // ---------- ingestion ----------

  lemma {:induction false} ClaimsKeepTenant(env: Env, chunks: seq<Chunk>, tenant: Name)
    requires forall c :: c in chunks ==> c.tenant == tenant
    ensures forall k :: k in AllClaims(env, chunks) ==> k.tenant == tenant
  {
    AllClaimsOwned(env, chunks);
  }

  lemma {:induction false} MiningIsScoped(env: Env, entities: map<EntityKey, set<string>>, chunks: seq<Chunk>,
                                          tenant: Name)
    requires forall c :: c in chunks ==> c.tenant == tenant
    ensures forall k :: k in entities && k.tenant != tenant ==>
              k in MineEntities(env, entities, chunks) && MineEntities(env, entities, chunks)[k] == entities[k]
  {
    if chunks != [] {
      var n := |chunks| - 1;
      assert chunks[n] in chunks;
      assert forall c :: c in chunks[..n] ==> c in chunks;
      MiningIsScoped(env, entities, chunks[..n], tenant);
      UpsertAllKeys(MineEntities(env, entities, chunks[..n]), chunks[n].tenant, env.entities(chunks[n].text));
    }
  }

  /** Rows of other tenants at the end of a table do not show in the tenant's part of it. */
  lemma OthersAppended<T>(rows: seq<T>, more: seq<T>, mine: T -> bool)
    requires forall x :: x in more ==> !mine(x)
    ensures Keep(rows + more, mine) == Keep(rows, mine)
  {
    KeepConcat(rows, more, mine);
    KeepNone(more, mine);
    hide Keep;
  }

  lemma MineIsScoped(u: Name, s: Store, env: Env, chunks: seq<Chunk>, tenant: Name)
    requires tenant != u && forall c :: c in chunks ==> c.tenant == tenant
    ensures SameFor(u, s, Mine(s, env, chunks))
  {
    hide Keep, MineEntities, AllClaims;
    ClaimsKeepTenant(env, chunks, tenant);
    MiningIsScoped(env, s.entities, chunks, tenant);
    MineEntitiesKeys(env, s.entities, chunks);
    OthersAppended(s.claims, AllClaims(env, chunks), ClaimIn(u));
  }

  lemma InsertIsScoped(u: Name, s: Store, t: Store, tenant: Name, source: Id, d: Document, chunks: seq<Chunk>)
    requires tenant != u && IsInsertion(s, t, tenant, source, d, chunks) && KeysOk(s)
    ensures SameFor(u, s, t)
  {
    hide Keep, Distinct;
    OthersAppended(s.chunks, chunks, ChunkIn(u));
    OthersAppended(s.fts, Each(chunks, MirrorRow()), FtsIn(u));
    assert s.nextId !in s.documents;
    hide Each, KeysOk;
  }

  lemma IngestIsScoped(u: Name, s: Store, env: Env, tenant: Name, source: Id, content: string, flagged: bool)
    requires Inv(s) && tenant != u
    ensures SameFor(u, s, Ingest(s, env, tenant, source, content, flagged).0)
  {
    if HasSource(s, tenant, source) && !AlreadyIngested(s, source, tenant, env.sha(content)) {
      hide Inv, Ingest, Mine, DeleteDocuments, NewChunks, SameFor;
      var cleared, inserted, chunks := IngestInserts(s, env, tenant, source, content, flagged);
      var superseded := Superseded(s, tenant, source);
      DeleteIsScoped(u, s, superseded);
      DeleteKeeps(s, superseded);
      KeysOfInv(cleared);
      InsertIsScoped(u, cleared, inserted, tenant, source, NewDocument(env, tenant, source, content, flagged), chunks);
      MineIsScoped(u, inserted, env, chunks, tenant);
      SameForTransitive(u, s, cleared, inserted);
      SameForTransitive(u, s, inserted, Mine(inserted, env, chunks));
    }
  }

  lemma KeysOfInv(s: Store)
    requires Inv(s)
    ensures KeysOk(s) && DocumentsOk(s)
  {}

  // ---------- the other operations ----------

  lemma DeleteSourceIsScoped(u: Name, s: Store, tenant: Name, id: Id)
    requires Inv(s) && tenant != u
    ensures SameFor(u, s, DeleteSource(s, tenant, id).0)
  {
    hide Inv, DeleteDocuments, SameFor;
    SameForReflexive(u, s);
    if HasSource(s, tenant, id) {
      KeysOfInv(s);
      hide KeysOk;
      var t := DeleteDocuments(s, DocumentsOf(s, id));
      DeleteIsScoped(u, s, DocumentsOf(s, id));
      assert t.sources == s.sources by { SourcesUntouched(s, DocumentsOf(s, id)); }
      DropSourceIsScoped(u, t, tenant, id);
      SameForTransitive(u, s, t, t.(sources := t.sources - {id}));
    }
  }

  lemma SourcesUntouched(s: Store, ds: set<Id>)
    ensures DeleteDocuments(s, ds).sources == s.sources
  {}

  lemma DropSourceIsScoped(u: Name, s: Store, tenant: Name, id: Id)
    requires HasSource(s, tenant, id) && tenant != u
    ensures SameFor(u, s, s.(sources := s.sources - {id}))
  {
    hide Keep;
  }

  lemma MarkIsScoped(u: Name, s: Store, tenant: Name, id: Id, hold: bool)
    requires Inv(s) && HasDocument(s, tenant, id) && tenant != u
    ensures SameFor(u, s, s.(documents := s.documents[id := s.documents[id].(quarantine := hold)],
                             claims := Keep(s.claims, ClaimNotOfDocument(id))))
  {
    hide Inv, SameFor;
    JustMarkIsScoped(u, s, tenant, id, hold);
    ClaimsOfDocument(s, id);
    var marked := s.(documents := s.documents[id := s.documents[id].(quarantine := hold)]);
    DropClaimsIsScoped(u, marked, id);
    SameForTransitive(u, s, marked, marked.(claims := Keep(s.claims, ClaimNotOfDocument(id))));
  }

  lemma DropClaimsIsScoped(u: Name, s: Store, id: Id)
    requires forall k :: k in s.claims && k.documentId == id ==> k.tenant != u
    ensures SameFor(u, s, s.(claims := Keep(s.claims, ClaimNotOfDocument(id))))
  {
    KeepTwice(s.claims, ClaimNotOfDocument(id), ClaimIn(u), ClaimIn(u));
    hide Keep;
  }

  lemma QuarantineIsScoped(u: Name, s: Store, env: Env, tenant: Name, id: Id, hold: bool)
    requires Inv(s) && tenant != u
    ensures SameFor(u, s, SetQuarantine(s, env, tenant, id, hold).0)
  {
    hide SameFor, Inv, Mine, Keep, ChunkIds;
    SameForReflexive(u, s);
    if HasDocument(s, tenant, id) {
      OwnChunks(s, id);
      var own := Keep(s.chunks, OfDocuments({id}));
      var was := s.documents[id].quarantine;
      var marked := s.(documents := s.documents[id := s.documents[id].(quarantine := hold)]);
      var dropped := marked.(claims := Keep(s.claims, ClaimNotOfDocument(id)));
      MarkIsScoped(u, s, tenant, id, hold);
      if !hold && was {
        MineIsScoped(u, dropped, env, own, tenant);
        SameForTransitive(u, s, dropped, Mine(dropped, env, own));
      } else if hold && !was {
        MentionsOfInv(s);
        ForgettingIsScoped(u, s, dropped, tenant, ChunkIds(own));
      } else {
        JustMarkIsScoped(u, s, tenant, id, hold);
      }
    }
  }

  lemma JustMarkIsScoped(u: Name, s: Store, tenant: Name, id: Id, hold: bool)
    requires HasDocument(s, tenant, id) && tenant != u
    ensures SameFor(u, s, s.(documents := s.documents[id := s.documents[id].(quarantine := hold)]))
  {
    hide Keep;
  }

  lemma MentionsOfInv(s: Store)
    requires Inv(s)
    ensures MentionsOk(s) && MirrorOk(s) && ChunksOk(s) && Distinct(s.chunks)
  {}

  lemma ClaimsOfDocument(s: Store, id: Id)
    requires Inv(s) && id in s.documents
    ensures forall k :: k in s.claims && k.documentId == id ==> k.tenant == s.documents[id].tenant
  {
    hide Distinct, MirrorOk, MentionsOk, EntitiesOk;
    forall k | k in s.claims && k.documentId == id ensures k.tenant == s.documents[id].tenant {
      var c :| c in s.chunks && OwnsClaim(c, k);
      assert HasDocument(s, c.tenant, c.documentId);
    }
  }

  lemma ForgettingIsScoped(u: Name, s: Store, t: Store, tenant: Name, ids: set<Id>)
    requires MentionsOk(s) && tenant != u && forall c :: c in s.chunks && c.id in ids ==> c.tenant == tenant
    requires SameFor(u, s, t) && t.mentions == s.mentions && t.entities == s.entities
    ensures var mentions := set m | m in s.mentions && m.chunkId !in ids;
            SameFor(u, s, t.(mentions := mentions,
                             entities := map k | k in s.entities && (k.tenant != tenant || Mentioned(mentions, k)) ::
                                           s.entities[k]))
  {
    hide Keep;
    forall m: Mention | m.entity.tenant == u && m in s.mentions ensures m.chunkId !in ids {
      var c :| c in s.chunks && OwnsMention(c, m);
    }
  }

  lemma RedactScopedTables(u: Name, s: Store, env: Env, tenant: Name, term: string, replacement: string)
    requires |term| >= 2 && tenant != u && MirrorOk(s) && Distinct(s.chunks)
    ensures SameTables(u, s, RedactTerm(s, env, tenant, term, replacement).0)
  {
    hide Scrub, HitDocuments, ScrubOption, EntityHit, SourceHit, Keep, Distinct, MirrorOk;
    EachUntouched(s.chunks, ScrubChunk(env, tenant, term, replacement), ChunkIn(u));
    EachUntouched(s.claims, ScrubClaim(env, tenant, term, replacement), ClaimIn(u));
    RedactScopedMirror(u, s, env, tenant, term, replacement);
  }

  lemma RedactScopedMirror(u: Name, s: Store, env: Env, tenant: Name, term: string, replacement: string)
    requires |term| >= 2 && tenant != u && MirrorOk(s) && Distinct(s.chunks)
    ensures var hit := Keep(s.chunks, HitChunks(env, tenant, term));
            var added := Each(Each(hit, ScrubChunk(env, tenant, term, replacement)), MirrorRow());
            Keep(Keep(s.fts, FtsOutside(ChunkIds(hit))) + added, FtsIn(u)) == Keep(s.fts, FtsIn(u))
  {
    hide Scrub, Occurs, Keep, Distinct, MirrorOk, ChunkIds;
    var hit := Keep(s.chunks, HitChunks(env, tenant, term));
    var ids := ChunkIds(hit);
    var added := Each(Each(hit, ScrubChunk(env, tenant, term, replacement)), MirrorRow());
    HitIds(s.chunks, env, tenant, term);
    FtsRowsHaveChunks(s);
    KeepIn(s.chunks, HitChunks(env, tenant, term));
    KeepConcat(Keep(s.fts, FtsOutside(ids)), added, FtsIn(u));
    KeepTwice(s.fts, FtsOutside(ids), FtsIn(u), FtsIn(u));
    forall r | r in added ensures r.tenant != u {
      var i :| 0 <= i < |added| && r == added[i];
      assert hit[i] in hit;
    }
    KeepNone(added, FtsIn(u));
    assert Keep(s.fts, FtsIn(u)) + [] == Keep(s.fts, FtsIn(u));
  }

  /** A transformation that leaves the selected rows alone, and the others unselected, leaves the selection alone. */
  lemma {:induction false} EachUntouched<T>(rows: seq<T>, f: T -> T, p: T -> bool)
    requires forall x :: x in rows ==> p(f(x)) == p(x) && (p(x) ==> f(x) == x)
    ensures Keep(rows, p) == Keep(Each(rows, f), p)
  {
    if rows != [] {
      assert rows[0] in rows;
      assert forall x :: x in rows[1..] ==> x in rows;
      EachUntouched(rows[1..], f, p);
      assert Each(rows, f)[1..] == Each(rows[1..], f);
    }
  }

  lemma RedactScopedRecords(u: Name, s: Store, env: Env, tenant: Name, term: string, replacement: string)
    requires |term| >= 2 && tenant != u && ChunksOk(s)
    ensures SameRecords(u, s, RedactTerm(s, env, tenant, term, replacement).0)
    ensures SameEntities(u, s, RedactTerm(s, env, tenant, term, replacement).0)
  {
    hide Scrub, ScrubOption, Keep, ChunkIds;
    var ds := HitDocuments(s, env, tenant, term);
    forall d | d in s.documents && s.documents[d].tenant == u ensures d !in ds {
      forall c | c in s.chunks && ChunkHit(env, tenant, term, c) ensures c.documentId != d {
        assert HasDocument(s, c.tenant, c.documentId);
      }
    }
  }

  lemma RedactIsScoped(u: Name, s: Store, env: Env, tenant: Name, term: string, replacement: string)
    requires Inv(s) && tenant != u
    ensures SameFor(u, s, RedactTerm(s, env, tenant, term, replacement).0)
  {
    hide RedactTerm, Inv, SameFor;
    if |term| >= 2 {
      MentionsOfInv(s);
      hide MirrorOk, Distinct, ChunksOk, SameTables, SameRecords, SameEntities;
      RedactScopedTables(u, s, env, tenant, term, replacement);
      RedactScopedRecords(u, s, env, tenant, term, replacement);
      SameForParts(u, s, RedactTerm(s, env, tenant, term, replacement).0);
    } else {
      ShortTermDoesNothing(s, env, tenant, term, replacement);
      SameForReflexive(u, s);
    }
  }

  lemma ShortTermDoesNothing(s: Store, env: Env, tenant: Name, term: string, replacement: string)
    requires |term| < 2
    ensures RedactTerm(s, env, tenant, term, replacement).0 == s
  {}

  lemma SameForParts(u: Name, s: Store, t: Store)
    requires SameTables(u, s, t) && SameRecords(u, s, t) && SameEntities(u, s, t)
    ensures SameFor(u, s, t)
  {}

  lemma EraseIsScoped(u: Name, s: Store, tenant: Name)
    requires tenant != u
    ensures SameFor(u, s, EraseTenant(s, tenant))
  {
    hide Keep, EraseTenant, SameTables, SameRecords, SameEntities;
    EraseScopedTables(u, s, tenant);
    EraseScopedRecords(u, s, tenant);
  }

  lemma EraseScopedTables(u: Name, s: Store, tenant: Name)
    requires tenant != u
    ensures SameTables(u, s, EraseTenant(s, tenant))
  {
    hide Keep;
    KeepTwice(s.chunks, ChunkOfOthers(tenant), ChunkIn(u), ChunkIn(u));
    KeepTwice(s.fts, FtsOfOthers(tenant), FtsIn(u), FtsIn(u));
    KeepTwice(s.claims, ClaimOfOthers(tenant), ClaimIn(u), ClaimIn(u));
  }

  lemma EraseScopedRecords(u: Name, s: Store, tenant: Name)
    requires tenant != u
    ensures SameRecords(u, s, EraseTenant(s, tenant)) && SameEntities(u, s, EraseTenant(s, tenant))
  {
    hide Keep;
  }

  lemma AddSourceIsScoped(u: Name, s: Store, tenant: Name, locator: string, title: Option<string>,
                          owner: Option<string>)
    requires Inv(s) && tenant != u
    ensures SameFor(u, s, AddSource(s, tenant, locator, title, owner))
  {
    hide Inv, KeysOk, DocumentsOk, SameFor;
    KeysOfInv(s);
    var row := Source(tenant, locator, title, owner);
    if exists x :: x in s.sources && IsSource(s.sources[x], tenant, locator) {
      var updated := map x | x in s.sources :: if IsSource(s.sources[x], tenant, locator) then row else s.sources[x];
      SourcesAreScoped(u, s, s.(sources := updated));
    } else {
      FreshSourceId(s);
      SourcesAreScoped(u, s, s.(sources := s.sources[s.nextId := row], nextId := s.nextId + 1));
    }
  }

  lemma FreshSourceId(s: Store)
    requires KeysOk(s)
    ensures s.nextId !in s.sources
  {}

  /** A change of the sources table that adds and rewrites no row of `u` leaves everything of `u` alone. */
  lemma SourcesAreScoped(u: Name, s: Store, t: Store)
    requires t == s.(sources := t.sources, nextId := t.nextId)
    requires s.sources.Keys <= t.sources.Keys
    requires forall x :: x in t.sources && (x !in s.sources || s.sources[x] != t.sources[x]) ==>
      t.sources[x].tenant != u && (x in s.sources ==> s.sources[x].tenant != u)
    ensures SameFor(u, s, t)
  {
    hide Keep;
  }

  lemma StepIsScoped(u: Name, env: Env, s: Store, op: Op)
    requires Inv(s) && op.tenant != u
    ensures SameFor(u, s, Step(env, s, op))
  {
    hide Inv, SameFor;
    match op
    case Add(tenant, locator, title, owner) => AddSourceIsScoped(u, s, tenant, locator, title, owner);
    case IngestContent(tenant, source, content, flagged) => IngestIsScoped(u, s, env, tenant, source, content, flagged);
    case Remove(tenant, source) => DeleteSourceIsScoped(u, s, tenant, source);
    case Quarantine(tenant, document, hold) => QuarantineIsScoped(u, s, env, tenant, document, hold);
    case Redact(tenant, term, replacement) => RedactIsScoped(u, s, env, tenant, term, replacement);
    case Erase(tenant) => EraseIsScoped(u, s, tenant);
  }

  /** Whatever other tenants do, and in whatever order, the rows of `u` stay as they are. */
  lemma {:induction false} OthersCannotTouch(u: Name, env: Env, s: Store, ops: seq<Op>)
    requires Inv(s) && EnvOk(env) && forall op :: op in ops ==> op.tenant != u
    ensures SameFor(u, s, Run(env, s, ops))
    decreases |ops|
  {
    hide Inv, SameFor, Step;
    if ops == [] {
      SameForReflexive(u, s);
    } else {
      assert ops[0] in ops;
      assert forall op :: op in ops[1..] ==> op in ops;
      StepIsScoped(u, env, s, ops[0]);
      StepKeeps(env, s, ops[0]);
      OthersCannotTouch(u, env, Step(env, s, ops[0]), ops[1..]);
      SameForTransitive(u, s, Step(env, s, ops[0]), Run(env, s, ops));
    }
  }

  lemma SameForReflexive(u: Name, s: Store)
    ensures SameFor(u, s, s)
  {}
}
