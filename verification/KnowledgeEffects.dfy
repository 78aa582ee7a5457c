/**
  What each operation of the knowledge store does to its rows, column by column, and what erasure, aliases and
  locators amount to over whole runs.
 */
module KnowledgeEffects {
  import opened Basics
  import opened Redaction
  import opened Rows
  import opened KnowledgeModel
  import opened KnowledgeInvariant
  import opened KnowledgeSteps
  import opened TenantIsolation

  lemma Reachable(env: Env, ops: seq<Op>)
    requires EnvOk(env)
    ensures Inv(Run(env, EMPTY, ops))
  {
    InitInv();
    RunKeeps(env, EMPTY, ops);
  }

  lemma {:induction false} RunSplits(env: Env, s: Store, a: seq<Op>, b: seq<Op>)
    ensures Run(env, s, a + b) == Run(env, Run(env, s, a), b)
    decreases |a|
  {
    hide Step;
    if a == [] {
      assert a + b == b;
    } else {
      assert (a + b)[1..] == a[1..] + b;
      RunSplits(env, Step(env, s, a[0]), a[1..], b);
    }
  }

  // ---------- erasing a tenant ----------

  /** No row of any table is the tenant's: not a mention of its entities either. */
  predicate NothingOf(s: Store, u: Name) {
    && (forall x :: x in s.sources ==> s.sources[x].tenant != u)
    && (forall d :: d in s.documents ==> s.documents[d].tenant != u)
    && (forall c :: c in s.chunks ==> c.tenant != u)
    && (forall r :: r in s.fts ==> r.tenant != u)
    && (forall k :: k in s.claims ==> k.tenant != u)
    && (forall k :: k in s.entities ==> k.tenant != u)
    && (forall m :: m in s.mentions ==> m.entity.tenant != u)
  }

  /**
    Erasing a tenant leaves no row of it, nor a mention in a chunk it had, and every row of every other tenant as it
    was.
   */
  lemma TenantIsErased(s: Store, u: Name)
    requires Inv(s)
    ensures var t := EraseTenant(s, u);
            && NothingOf(t, u)
            && (forall m, c :: m in t.mentions && c in s.chunks && c.id == m.chunkId ==> c.tenant != u)
            && (forall v: Name :: v != u ==> SameFor(v, s, t))
  {
    hide SameFor, EraseTenant, Inv;
    ErasedTables(s, u);
    ErasedMentions(s, u);
    forall v: Name | v != u ensures SameFor(v, s, EraseTenant(s, u)) { EraseIsScoped(v, s, u); }
  }

  lemma ErasedTables(s: Store, u: Name)
    ensures NothingOf(EraseTenant(s, u), u)
  {
    KeepIn(s.chunks, ChunkOfOthers(u));
    KeepIn(s.fts, FtsOfOthers(u));
    KeepIn(s.claims, ClaimOfOthers(u));
    hide Keep;
  }

  lemma ErasedMentions(s: Store, u: Name)
    requires Inv(s)
    ensures var t := EraseTenant(s, u);
            forall m, c :: m in t.mentions && c in s.chunks && c.id == m.chunkId ==> c.tenant != u
  {
    DistinctUnique(s.chunks);
    hide Keep, Distinct, MirrorOk;
    var t := EraseTenant(s, u);
    forall m, c | m in t.mentions && c in s.chunks && c.id == m.chunkId ensures c.tenant != u {
      var e :| e in s.chunks && OwnsMention(e, m);
    }
  }

  /** With no row of the tenant there is nothing for a data-subject search to find. */
  lemma NothingOfIsNotFound(s: Store, env: Env, u: Name, term: string)
    requires NothingOf(s, u)
    ensures NothingFound(s, env, u, term)
  {
    hide Occurs;
  }

  lemma {:induction false} KeptNothing<T>(rows: seq<T>, mine: T -> bool)
    requires Keep(rows, mine) == []
    ensures forall x :: x in rows ==> !mine(x)
  {
    KeepIn(rows, mine);
    forall x | x in rows ensures !mine(x) {
      assert mine(x) ==> x in Keep(rows, mine);
    }
  }

  lemma SameForKeepsNothing(s: Store, t: Store, u: Name)
    requires NothingOf(s, u) && SameFor(u, s, t)
    ensures NothingOf(t, u)
  {
    KeepNone(s.chunks, ChunkIn(u));
    KeepNone(s.fts, FtsIn(u));
    KeepNone(s.claims, ClaimIn(u));
    KeptNothing(t.chunks, ChunkIn(u));
    KeptNothing(t.fts, FtsIn(u));
    KeptNothing(t.claims, ClaimIn(u));
    hide Keep;
  }

  /**
    After any run that ends in the erasure of a tenant, and whatever the others do next, no table has a row of it and
    no search for any term finds anything of it.
   */
  lemma ErasedStaysErased(env: Env, before: seq<Op>, u: Name, after: seq<Op>, term: string)
    requires EnvOk(env) && forall op :: op in after ==> op.tenant != u
    ensures var s := Run(env, EMPTY, before + [Erase(u)] + after);
            NothingOf(s, u) && NothingFound(s, env, u, term)
  {
    hide Inv, NothingOf, SameFor, EraseTenant, NothingFound;
    var s := Run(env, EMPTY, before);
    var t := EraseTenant(s, u);
    Reachable(env, before);
    RunSplits(env, EMPTY, before, [Erase(u)] + after);
    assert before + [Erase(u)] + after == before + ([Erase(u)] + after);
    assert ([Erase(u)] + after)[1..] == after;
    assert Run(env, EMPTY, before + [Erase(u)] + after) == Run(env, t, after);
    TenantIsErased(s, u);
    EraseKeeps(s, u);
    OthersCannotTouch(u, env, t, after);
    SameForKeepsNothing(t, Run(env, t, after), u);
    NothingOfIsNotFound(Run(env, t, after), env, u, term);
  }

  // ---------- sources ----------

  /** All tables but the sources are as they were. */
  predicate OnlySources(s: Store, t: Store) {
    t == s.(sources := t.sources, nextId := t.nextId)
  }

  /** The tenant's source with this locator gets the given columns, or is added with them; no other row changes. */
  lemma AddSourceActs(s: Store, tenant: Name, locator: string, title: Option<string>, owner: Option<string>)
    requires KeysOk(s)
    ensures var t := AddSource(s, tenant, locator, title, owner);
            var known := exists x :: x in s.sources && s.sources[x].tenant == tenant && s.sources[x].locator == locator;
            && OnlySources(s, t)
            && t.sources.Keys == s.sources.Keys + (if known then {} else {s.nextId})
            && t.nextId == s.nextId + (if known then 0 else 1)
            && (forall x :: x in s.sources && !(s.sources[x].tenant == tenant && s.sources[x].locator == locator) ==>
                  t.sources[x] == s.sources[x])
            && (forall x :: x in t.sources
                            && (x in s.sources ==> s.sources[x].tenant == tenant && s.sources[x].locator == locator) ==>
                  && t.sources[x].tenant == tenant && t.sources[x].locator == locator
                  && t.sources[x].title == title && t.sources[x].owner == owner)
  {
    hide Distinct;
    assert s.nextId !in s.sources;
  }

  predicate LocatorsUnique(s: Store) {
    forall x, y | x in s.sources && y in s.sources ::
      s.sources[x].tenant == s.sources[y].tenant && s.sources[x].locator == s.sources[y].locator ==> x == y
  }

  /** Sources are only ever renamed, dropped or added under a new locator. */
  lemma StepKeepsLocators(env: Env, s: Store, op: Op)
    requires KeysOk(s) && LocatorsUnique(s)
    ensures LocatorsUnique(Step(env, s, op))
  {
    hide Distinct, DeleteDocuments, Mine, Keep, Each, ChunkIds, HitDocuments, Scrub, ScrubOption, EntityHit,
      NewDocument, NewChunks, SourceHit, KeysOk;
    match op
    case Add(tenant, locator, title, owner) =>
      hide AddSource;
      AddSourceActs(s, tenant, locator, title, owner);
    case Remove(tenant, source) =>
      SourcesUntouched(s, DocumentsOf(s, source));
    case IngestContent(tenant, source, content, flagged) =>
      IngestSources(s, env, tenant, source, content, flagged);
    case Quarantine(tenant, document, hold) =>
      QuarantineSources(s, env, tenant, document, hold);
    case Redact(tenant, term, replacement) =>
    case Erase(tenant) =>
  }

  lemma MineSources(s: Store, env: Env, chunks: seq<Chunk>)
    ensures Mine(s, env, chunks).sources == s.sources && Mine(s, env, chunks).documents == s.documents
    ensures Mine(s, env, chunks).chunks == s.chunks && Mine(s, env, chunks).fts == s.fts
    ensures Mine(s, env, chunks).nextId == s.nextId
  {}

  lemma IngestSources(s: Store, env: Env, tenant: Name, source: Id, content: string, flagged: bool)
    ensures Ingest(s, env, tenant, source, content, flagged).0.sources == s.sources
  {
    hide Mine, Keep, Each, ChunkIds, NewDocument, NewChunks;
    forall t: Store, chunks: seq<Chunk> ensures Mine(t, env, chunks).sources == t.sources {
      MineSources(t, env, chunks);
    }
  }

  lemma QuarantineSources(s: Store, env: Env, tenant: Name, id: Id, hold: bool)
    ensures SetQuarantine(s, env, tenant, id, hold).0.sources == s.sources
  {
    hide Mine, Keep, ChunkIds;
    forall t: Store, chunks: seq<Chunk> ensures Mine(t, env, chunks).sources == t.sources {
      MineSources(t, env, chunks);
    }
  }

  /** After any run a tenant has at most one source under a locator. */
  lemma {:induction false} LocatorsAreUnique(env: Env, s: Store, ops: seq<Op>)
    requires EnvOk(env) && Inv(s) && LocatorsUnique(s)
    ensures LocatorsUnique(Run(env, s, ops))
    decreases |ops|
  {
    hide Step, LocatorsUnique, DocumentsOk, ChunksOk, MirrorOk, ClaimsOk, MentionsOk, EntitiesOk;
    if ops != [] {
      StepKeepsLocators(env, s, ops[0]);
      StepKeeps(env, s, ops[0]);
      LocatorsAreUnique(env, Step(env, s, ops[0]), ops[1..]);
    }
  }

  // ---------- deleting documents ----------

  /** Chunks, claims, mentions and mirror rows of the documents go; all other rows stay, entities if still mentioned. */
  lemma DeletedExactly(s: Store, ds: set<Id>)
    requires Inv(s)
    ensures var t := DeleteDocuments(s, ds);
            && t.sources == s.sources && t.nextId == s.nextId
            && t.documents.Keys == s.documents.Keys - ds
            && (forall d :: d in t.documents ==> t.documents[d] == s.documents[d])
            && (forall c :: c in t.chunks <==> c in s.chunks && c.documentId !in ds)
            && (forall k :: k in t.claims <==> k in s.claims && k.documentId !in ds)
            && (forall m :: m in t.mentions <==>
                  m in s.mentions && exists c :: c in s.chunks && c.id == m.chunkId && c.documentId !in ds)
            && (forall k :: k in t.entities <==> k in s.entities && exists m :: m in t.mentions && m.entity == k)
            && (forall k :: k in t.entities ==> t.entities[k] == s.entities[k])
  {
    var ids := ChunkIds(Keep(s.chunks, OfDocuments(ds)));
    IdsOfKept(s.chunks, ds);
    DistinctUnique(s.chunks);
    KeepIn(s.chunks, NotOfDocuments(ds));
    KeepIn(s.claims, ClaimOutside(ids));
    hide Keep, ChunkIds, Distinct, MirrorOk;
    var t := DeleteDocuments(s, ds);
    forall k | k in s.claims ensures k in t.claims <==> k.documentId !in ds {
      var c :| c in s.chunks && OwnsClaim(c, k);
    }
    forall m | m in s.mentions
      ensures m in t.mentions <==> exists c :: c in s.chunks && c.id == m.chunkId && c.documentId !in ds
    {
      var c :| c in s.chunks && OwnsMention(c, m);
    }
  }

  /** Removing a source removes it, its documents and what came from them, and nothing else. */
  lemma RemovedSourceIsGone(s: Store, tenant: Name, id: Id)
    requires Inv(s)
    ensures var (t, error) := DeleteSource(s, tenant, id);
            && (error == None <==> id in s.sources && s.sources[id].tenant == tenant)
            && (error.Some? ==> t == s && error == Some(NotFound))
            && (error.None? ==>
                  && t.sources.Keys == s.sources.Keys - {id}
                  && (forall x :: x in t.sources ==> t.sources[x] == s.sources[x])
                  && (forall d :: d in t.documents <==> d in s.documents && s.documents[d].sourceId != id)
                  && (forall d :: d in t.documents ==> t.documents[d] == s.documents[d])
                  && (forall c :: c in t.chunks <==> c in s.chunks && c.documentId in t.documents)
                  && (forall k :: k in t.claims <==> k in s.claims && k.documentId in t.documents)
                  && (forall m :: m in t.mentions <==>
                        m in s.mentions && exists c :: c in t.chunks && c.id == m.chunkId)
                  && (forall k :: k in t.entities <==> k in s.entities && exists m :: m in t.mentions && m.entity == k)
                  && (forall k :: k in t.entities ==> t.entities[k] == s.entities[k]))
  {
    hide DeleteDocuments, Inv;
    DeletedExactly(s, DocumentsOf(s, id));
    RowsHaveDocuments(s);
  }

  lemma RowsHaveDocuments(s: Store)
    requires Inv(s)
    ensures forall c :: c in s.chunks ==> c.documentId in s.documents
    ensures forall k :: k in s.claims ==> k.documentId in s.documents
  {
    hide Distinct, MirrorOk;
    forall c | c in s.chunks ensures c.documentId in s.documents {
      assert HasDocument(s, c.tenant, c.documentId);
    }
    forall k | k in s.claims ensures k.documentId in s.documents {
      var c :| c in s.chunks && OwnsClaim(c, k);
    }
  }

  // ---------- ingestion ----------

  predicate Owned(s: Store, tenant: Name, source: Id) {
    source in s.sources && s.sources[source].tenant == tenant
  }

  /** The tenant has a document of this source with this fingerprint. */
  predicate Known(s: Store, tenant: Name, source: Id, fingerprint: string) {
    exists d :: d in s.documents && s.documents[d].tenant == tenant && s.documents[d].sourceId == source
                && s.documents[d].fingerprint == fingerprint
  }

  lemma MineWritesExtractions(env: Env)
    ensures forall u: Store, chunks: seq<Chunk> ::
      Mine(u, env, chunks) == u.(claims := Mine(u, env, chunks).claims, mentions := Mine(u, env, chunks).mentions,
                                 entities := Mine(u, env, chunks).entities)
  {
    forall u: Store, chunks: seq<Chunk>
      ensures Mine(u, env, chunks) == u.(claims := Mine(u, env, chunks).claims,
                                         mentions := Mine(u, env, chunks).mentions,
                                         entities := Mine(u, env, chunks).entities)
    {
      MineSources(u, env, chunks);
    }
  }

  /** Ingesting under a source that is not the tenant's, or content that is there already, changes nothing. */
  lemma IngestCanDoNothing(s: Store, env: Env, tenant: Name, source: Id, content: string, flagged: bool)
    ensures var (t, error) := Ingest(s, env, tenant, source, content, flagged);
            && error == (if Owned(s, tenant, source) then None else Some(NotFound))
            && (!Owned(s, tenant, source) || Known(s, tenant, source, env.sha(content)) ==> t == s)
  {
    hide DeleteDocuments, Mine, NewChunks, NewDocument;
  }

  /** Other content supersedes: the source's earlier document goes, the new one stands with its columns, others stay. */
  lemma IngestStoresDocument(s: Store, env: Env, tenant: Name, source: Id, content: string, flagged: bool)
    requires Inv(s) && Owned(s, tenant, source) && !Known(s, tenant, source, env.sha(content))
    ensures var t := Ingest(s, env, tenant, source, content, flagged).0;
            var page := env.extract(content);
            var n := s.nextId;
            && t.sources == s.sources && t.nextId == n + 1 + |page.pieces|
            && n in t.documents && n !in s.documents && t.documents[n].tenant == tenant
            && t.documents[n].sourceId == source && t.documents[n].fingerprint == env.sha(content)
            && t.documents[n].title == page.title && t.documents[n].content == page.text
            && (t.documents[n].quarantine <==> flagged || env.poisoned(page.text))
            && (forall d :: d != n ==> (d in t.documents <==> d in s.documents && s.documents[d].sourceId != source))
            && (forall d :: d in t.documents && d != n ==> t.documents[d] == s.documents[d])
  {
    hide DeleteDocuments, Inv, Mine, Keep, Each, NewChunks;
    KeysOfInv(s);
    SupersededIsAll(s, tenant, source);
    DeletedExactly(s, DocumentsOf(s, source));
    NextIsFresh(s);
    hide KeysOk, DocumentsOk;
    MineWritesExtractions(env);
  }

  /** The new document's chunks stand at the end of the table, one for every piece in order; the others' stay. */
  lemma IngestStoresChunks(s: Store, env: Env, tenant: Name, source: Id, content: string, flagged: bool)
    requires Inv(s) && Owned(s, tenant, source) && !Known(s, tenant, source, env.sha(content))
    ensures var t := Ingest(s, env, tenant, source, content, flagged).0;
            var pieces := env.extract(content).pieces;
            var n := s.nextId;
            && |pieces| <= |t.chunks|
            && var first := |t.chunks| - |pieces|;
            && (forall c :: c in t.chunks[..first] <==>
                  c in s.chunks && c.documentId in s.documents && s.documents[c.documentId].sourceId != source)
            && (forall c :: c in t.chunks[..first] ==> c.documentId != n)
            && (forall i :: 0 <= i < |pieces| ==>
                  var c := t.chunks[first + i];
                  && c.tenant == tenant && c.documentId == n && c.ordinal == i && c.id == n + 1 + i
                  && c.heading == pieces[i].heading && c.text == pieces[i].text)
  {
    hide DeleteDocuments, Inv, Mine, Keep, Each;
    KeysOfInv(s);
    RowsHaveDocuments(s);
    SupersededIsAll(s, tenant, source);
    DeletedExactly(s, DocumentsOf(s, source));
    NextIsFresh(s);
    hide KeysOk, DocumentsOk;
    MineWritesExtractions(env);
    var cleared := DeleteDocuments(s, DocumentsOf(s, source));
    var t := Ingest(s, env, tenant, source, content, flagged).0;
    assert t.chunks == cleared.chunks + NewChunks(tenant, s.nextId, s.nextId + 1, env.extract(content).pieces);
    assert t.chunks[..|cleared.chunks|] == cleared.chunks;
  }

  lemma NextIsFresh(s: Store)
    requires Inv(s)
    ensures s.nextId !in s.documents && forall c :: c in s.chunks ==> c.documentId != s.nextId
  {
    hide Distinct, MirrorOk;
    RowsHaveDocuments(s);
  }

  // ---------- what mining writes ----------

  /** A chunk's claims are those recognised in its text, in order, with their text and kind and the chunk's keys. */
  lemma ClaimsSay(env: Env, c: Chunk)
    ensures |ClaimsOf(env, c)| == |env.claims(c.text)|
    ensures forall i :: 0 <= i < |env.claims(c.text)| ==>
      var k := ClaimsOf(env, c)[i];
      && k.text == env.claims(c.text)[i].text && k.kind == env.claims(c.text)[i].kind
      && k.chunkId == c.id && k.documentId == c.documentId && k.tenant == c.tenant
  {}

  /** Mining chunks writes exactly the claims recognised in them ... */
  lemma {:induction false} MinedClaims(env: Env, chunks: seq<Chunk>, k: Claim)
    ensures k in AllClaims(env, chunks) <==>
      exists c, f :: c in chunks && f in env.claims(c.text) && SaysOf(k, c, f)
  {
    if chunks != [] {
      var n := |chunks| - 1;
      MinedClaims(env, chunks[..n], k);
      ClaimsSay(env, chunks[n]);
      assert forall c :: c in chunks <==> c in chunks[..n] || c == chunks[n];
      if k in ClaimsOf(env, chunks[n]) {
        var i :| 0 <= i < |ClaimsOf(env, chunks[n])| && ClaimsOf(env, chunks[n])[i] == k;
        assert env.claims(chunks[n].text)[i] in env.claims(chunks[n].text);
        assert SaysOf(k, chunks[n], env.claims(chunks[n].text)[i]);
      }
      forall f | f in env.claims(chunks[n].text) && SaysOf(k, chunks[n], f) ensures k in ClaimsOf(env, chunks[n]) {
        var i :| 0 <= i < |env.claims(chunks[n].text)| && env.claims(chunks[n].text)[i] == f;
        assert ClaimsOf(env, chunks[n])[i] == k;
      }
    }
  }

  predicate SaysOf(k: Claim, c: Chunk, f: Found) {
    k.text == f.text && k.kind == f.kind && k.chunkId == c.id && k.documentId == c.documentId && k.tenant == c.tenant
  }

  /** `m` is chunk `c`'s mention of entity `r` in one of its surface forms. */
  predicate MentionsIt(m: Mention, c: Chunk, r: Resolved) {
    && m.entity.tenant == c.tenant && m.entity.canonical == r.canonical && m.entity.kind == r.kind
    && m.chunkId == c.id && m.surface in r.surfaces
  }

  /** ... and exactly the mentions ... */
  lemma MinedMentionsAre(env: Env, chunks: seq<Chunk>, m: Mention)
    ensures m in AllMentions(env, chunks) <==>
      exists c, r :: c in chunks && r in env.entities(c.text) && MentionsIt(m, c, r)
  {
    if m in AllMentions(env, chunks) {
      var c :| c in chunks && m in MentionsOf(env, c);
      var r, x :| r in env.entities(c.text) && x in r.surfaces
                  && m == Mention(EntityKey(c.tenant, r.canonical, r.kind), c.id, x);
      assert MentionsIt(m, c, r);
    }
    if c, r :| c in chunks && r in env.entities(c.text) && MentionsIt(m, c, r) {
      assert m == Mention(EntityKey(c.tenant, r.canonical, r.kind), c.id, m.surface);
      assert m in MentionsOf(env, c);
    }
  }

  /** Alias `a` of entity `k` comes from this text. */
  predicate NamedIn(env: Env, c: Chunk, k: EntityKey, a: string) {
    c.tenant == k.tenant && NamedAmong(env.entities(c.text), k, a)
  }

  predicate NamedAmong(rs: seq<Resolved>, k: EntityKey, a: string) {
    exists r :: r in rs && r.canonical == k.canonical && r.kind == k.kind && a in r.surfaces
  }

  lemma {:induction false} UpsertedAliases(entities: map<EntityKey, set<string>>, tenant: Name, rs: seq<Resolved>,
                                           k: EntityKey, a: string)
    requires k in UpsertAll(entities, tenant, rs)
    ensures a in UpsertAll(entities, tenant, rs)[k] <==>
      (k in entities && a in entities[k]) || (k.tenant == tenant && NamedAmong(rs, k, a))
  {
    if rs != [] {
      var n := |rs| - 1;
      assert forall r :: r in rs <==> r in rs[..n] || r == rs[n];
      UpsertAllKeys(entities, tenant, rs[..n]);
      if k in UpsertAll(entities, tenant, rs[..n]) {
        UpsertedAliases(entities, tenant, rs[..n], k, a);
      }
    }
  }

  /** ... and leaves every entity with the aliases it had and the surface forms found for it, and no others. */
  lemma {:induction false} MinedAliases(env: Env, entities: map<EntityKey, set<string>>, chunks: seq<Chunk>,
                                        k: EntityKey, a: string)
    requires k in MineEntities(env, entities, chunks)
    ensures a in MineEntities(env, entities, chunks)[k] <==>
      (k in entities && a in entities[k]) || exists c :: c in chunks && NamedIn(env, c, k, a)
  {
    hide NamedAmong;
    if chunks != [] {
      var n := |chunks| - 1;
      var before := MineEntities(env, entities, chunks[..n]);
      assert forall c :: c in chunks <==> c in chunks[..n] || c == chunks[n];
      UpsertedAliases(before, chunks[n].tenant, env.entities(chunks[n].text), k, a);
      MineEntitiesKeys(env, entities, chunks[..n]);
      assert (exists c :: c in chunks && NamedIn(env, c, k, a))
        <==> (exists c :: c in chunks[..n] && NamedIn(env, c, k, a)) || NamedIn(env, chunks[n], k, a);
      if k in before {
        MinedAliases(env, entities, chunks[..n], k, a);
      } else {
        UnminedIsUnnamed(env, entities, chunks[..n], k, a);
      }
    }
  }

  lemma UnminedIsUnnamed(env: Env, entities: map<EntityKey, set<string>>, chunks: seq<Chunk>, k: EntityKey, a: string)
    requires k !in MineEntities(env, entities, chunks)
    ensures k !in entities && forall c :: c in chunks ==> !NamedIn(env, c, k, a)
  {
    MineEntitiesKeys(env, entities, chunks);
    hide NamedIn, IsMinedKey;
    forall c | c in chunks ensures !NamedIn(env, c, k, a) {
      if NamedIn(env, c, k, a) {
        NamedIsMined(env, chunks, c, k, a);
      }
    }
  }

  lemma NamedIsMined(env: Env, chunks: seq<Chunk>, c: Chunk, k: EntityKey, a: string)
    requires c in chunks && NamedIn(env, c, k, a)
    ensures IsMinedKey(env, chunks, k)
  {
    var r :| r in env.entities(c.text) && r.canonical == k.canonical && r.kind == k.kind && a in r.surfaces;
  }

  // ---------- aliases over runs ----------

  /** Every surface form that is mentioned is an alias of the entity it is mentioned as. */
  predicate AliasesOk(s: Store) {
    forall m :: m in s.mentions ==> m.entity in s.entities && m.surface in s.entities[m.entity]
  }

  lemma MineKeepsAliases(s: Store, env: Env, chunks: seq<Chunk>)
    requires AliasesOk(s)
    ensures AliasesOk(Mine(s, env, chunks))
  {
    hide MineEntities, AllMentions, AllClaims;
    var t := Mine(s, env, chunks);
    MineEntitiesKeys(env, s.entities, chunks);
    forall m | m in t.mentions ensures m.entity in t.entities && m.surface in t.entities[m.entity] {
      if m in s.mentions {
        MinedAliases(env, s.entities, chunks, m.entity, m.surface);
      } else {
        MinedMentionsAre(env, chunks, m);
        var c, r :| c in chunks && r in env.entities(c.text) && MentionsIt(m, c, r);
        assert m.entity == EntityKey(c.tenant, r.canonical, r.kind);
        assert IsMinedKey(env, chunks, m.entity);
        assert NamedIn(env, c, m.entity, m.surface);
        MinedAliases(env, s.entities, chunks, m.entity, m.surface);
      }
    }
  }

  lemma SameEntitiesKeepsAliases(s: Store, t: Store)
    requires AliasesOk(s) && t.mentions == s.mentions && t.entities == s.entities
    ensures AliasesOk(t)
  {}

  lemma DeleteKeepsAliases(s: Store, ds: set<Id>)
    requires AliasesOk(s)
    ensures AliasesOk(DeleteDocuments(s, ds))
  {
    hide Keep, ChunkIds;
  }

  lemma IngestKeepsAliases(s: Store, env: Env, tenant: Name, source: Id, content: string, flagged: bool)
    requires AliasesOk(s)
    ensures AliasesOk(Ingest(s, env, tenant, source, content, flagged).0)
  {
    hide AliasesOk, Mine, DeleteDocuments, Keep, Each;
    forall ds: set<Id> ensures AliasesOk(DeleteDocuments(s, ds)) { DeleteKeepsAliases(s, ds); }
    forall u: Store, t: Store | AliasesOk(u) && t.mentions == u.mentions && t.entities == u.entities
      ensures AliasesOk(t) && forall chunks :: AliasesOk(Mine(t, env, chunks))
    {
      SameEntitiesKeepsAliases(u, t);
      forall chunks ensures AliasesOk(Mine(t, env, chunks)) { MineKeepsAliases(t, env, chunks); }
    }
  }

  lemma QuarantineKeepsAliases(s: Store, env: Env, tenant: Name, id: Id, hold: bool)
    requires AliasesOk(s)
    ensures AliasesOk(SetQuarantine(s, env, tenant, id, hold).0)
  {
    hide Mine, Keep, ChunkIds;
    forall t: Store, chunks | t.mentions == s.mentions && t.entities == s.entities
      ensures AliasesOk(Mine(t, env, chunks))
    {
      MineKeepsAliases(t, env, chunks);
    }
  }

  lemma RedactKeepsAliases(s: Store, env: Env, tenant: Name, term: string, replacement: string)
    requires AliasesOk(s)
    ensures AliasesOk(RedactTerm(s, env, tenant, term, replacement).0)
  {
    hide Keep, ChunkIds, Each, HitDocuments, Scrub, ScrubOption, SourceHit, EntityHit;
  }

  lemma EraseKeepsAliases(s: Store, tenant: Name)
    requires AliasesOk(s)
    ensures AliasesOk(EraseTenant(s, tenant))
  {
    hide Keep;
  }

  lemma StepKeepsAliases(env: Env, s: Store, op: Op)
    requires AliasesOk(s)
    ensures AliasesOk(Step(env, s, op))
  {
    hide AliasesOk, DeleteDocuments, Mine, Keep, Each, ChunkIds, HitDocuments, Scrub, ScrubOption, EntityHit,
      NewDocument, NewChunks, SourceHit, EraseTenant, SetQuarantine, Ingest, RedactTerm;
    match op
    case Add(tenant, locator, title, owner) => SameEntitiesKeepsAliases(s, Step(env, s, op));
    case Remove(tenant, source) =>
      DeleteKeepsAliases(s, DocumentsOf(s, source));
      if HasSource(s, tenant, source) {
        SameEntitiesKeepsAliases(DeleteDocuments(s, DocumentsOf(s, source)), Step(env, s, op));
      }
    case IngestContent(tenant, source, content, flagged) =>
      IngestKeepsAliases(s, env, tenant, source, content, flagged);
    case Quarantine(tenant, document, hold) => QuarantineKeepsAliases(s, env, tenant, document, hold);
    case Redact(tenant, term, replacement) => RedactKeepsAliases(s, env, tenant, term, replacement);
    case Erase(tenant) => EraseKeepsAliases(s, tenant);
  }

  /** After any run every surface form mentioned anywhere is among the aliases of its entity. */
  lemma {:induction false} AliasesOverRuns(env: Env, s: Store, ops: seq<Op>)
    requires AliasesOk(s)
    ensures AliasesOk(Run(env, s, ops))
    decreases |ops|
  {
    hide Step, AliasesOk;
    if ops != [] {
      StepKeepsAliases(env, s, ops[0]);
      AliasesOverRuns(env, Step(env, s, ops[0]), ops[1..]);
    }
  }

  // ---------- quarantine ----------

  /** Holding or releasing sets the document's flag and changes no other document, chunk or source. */
  lemma QuarantineActs(s: Store, env: Env, tenant: Name, id: Id, hold: bool)
    ensures var (t, error) := SetQuarantine(s, env, tenant, id, hold);
            && (error == None <==> id in s.documents && s.documents[id].tenant == tenant)
            && (error.Some? ==> t == s && error == Some(NotFound))
            && (error.None? ==>
                  && t.documents.Keys == s.documents.Keys
                  && (forall d :: d in s.documents && d != id ==> t.documents[d] == s.documents[d])
                  && t.documents[id] == s.documents[id].(quarantine := t.documents[id].quarantine)
                  && t.documents[id].quarantine == hold
                  && t.sources == s.sources && t.chunks == s.chunks && t.fts == s.fts
                  && (s.documents[id].quarantine == hold ==>
                        t.claims == s.claims && t.mentions == s.mentions && t.entities == s.entities))
  {
    hide Mine, Keep, ChunkIds;
    MineWritesExtractions(env);
  }

  // ---------- finding and redacting ----------

  /** A search reports the term wherever it stands: chunk texts and headings, claims, entities, titles and owners. */
  lemma SearchIsExact(s: Store, env: Env, u: Name, term: string)
    ensures NothingFound(s, env, u, term) <==>
      && (forall c :: c in s.chunks && c.tenant == u ==>
            !Occurs(env.sqlFold, term, c.text) && !Occurs(env.sqlFold, term, c.heading))
      && (forall k :: k in s.claims && k.tenant == u ==> !Occurs(env.sqlFold, term, k.text))
      && (forall k :: k in s.entities && k.tenant == u ==>
            !Occurs(env.sqlFold, term, k.canonical)
            && forall a :: a in s.entities[k] ==> !Occurs(env.sqlFold, term, a))
      && (forall d :: d in s.documents && s.documents[d].tenant == u && s.documents[d].title.Some? ==>
            !Occurs(env.sqlFold, term, s.documents[d].title.value))
      && (forall x :: x in s.sources && s.sources[x].tenant == u ==>
            && (s.sources[x].title.Some? ==> !Occurs(env.sqlFold, term, s.sources[x].title.value))
            && (s.sources[x].owner.Some? ==> !Occurs(env.sqlFold, term, s.sources[x].owner.value)))
  {
    hide Occurs;
  }

  /** `after` is `before` with every occurrence replaced if the row was found, and `before` itself otherwise. */
  predicate Rewritten(env: Env, term: string, replacement: string, found: bool, before: string, after: string)
    requires term != []
  {
    after == if found then ReplaceAll(env.regexFold, term, before, replacement) else before
  }

  /**
    Redaction rewrites the texts of exactly the rows that were found, removes exactly the entities that were found
    with their mentions, and changes nothing else.
   */
  lemma RedactionRewrites(s: Store, env: Env, u: Name, term: string, replacement: string)
    requires |term| >= 2
    ensures var (t, error) := RedactTerm(s, env, u, term, replacement);
            && error == None && t.nextId == s.nextId
            && |t.chunks| == |s.chunks| && |t.claims| == |s.claims|
            && (forall i :: 0 <= i < |s.chunks| ==>
                  var c, c' := s.chunks[i], t.chunks[i];
                  var found := c.tenant == u
                               && (Occurs(env.sqlFold, term, c.text) || Occurs(env.sqlFold, term, c.heading));
                  && c' == c.(text := c'.text, heading := c'.heading)
                  && Rewritten(env, term, replacement, found, c.text, c'.text)
                  && Rewritten(env, term, replacement, found, c.heading, c'.heading))
            && (forall i :: 0 <= i < |s.claims| ==>
                  var k, k' := s.claims[i], t.claims[i];
                  && k' == k.(text := k'.text)
                  && var found := k.tenant == u && Occurs(env.sqlFold, term, k.text);
                  Rewritten(env, term, replacement, found, k.text, k'.text))
            && (forall k :: k in t.entities <==>
                  k in s.entities
                  && !(k.tenant == u && (Occurs(env.sqlFold, term, k.canonical)
                                         || exists a :: a in s.entities[k] && Occurs(env.sqlFold, term, a))))
            && (forall k :: k in t.entities ==> t.entities[k] == s.entities[k])
            && (forall m :: m in t.mentions <==> m in s.mentions && (m.entity in s.entities ==> m.entity in t.entities))
  {
    hide Occurs, Keep, ChunkIds, HitDocuments, SourceHit, ReplaceAll;
  }

  /** A document's content and title are rewritten if one of its chunks or its title was found. */
  lemma RedactionRewritesDocuments(s: Store, env: Env, u: Name, term: string, replacement: string)
    requires |term| >= 2
    ensures var t := RedactTerm(s, env, u, term, replacement).0;
            && t.documents.Keys == s.documents.Keys
            && (forall i :: i in s.documents ==>
                  var d, d' := s.documents[i], t.documents[i];
                  var found := (d.tenant == u && d.title.Some? && Occurs(env.sqlFold, term, d.title.value))
                    || exists c :: c in s.chunks && c.documentId == i && c.tenant == u
                         && (Occurs(env.sqlFold, term, c.text) || Occurs(env.sqlFold, term, c.heading));
                  && d' == d.(content := d'.content, title := d'.title)
                  && Rewritten(env, term, replacement, found, d.content, d'.content)
                  && d'.title.Some? == d.title.Some?
                  && (d.title.Some? ==> Rewritten(env, term, replacement, found, d.title.value, d'.title.value)))
  {
    hide Occurs, Keep, ChunkIds, ReplaceAll, Each, EntityHit, SourceHit;
  }

  /** A source's title and owner are rewritten if one of them was found. */
  lemma RedactionRewritesSources(s: Store, env: Env, u: Name, term: string, replacement: string)
    requires |term| >= 2
    ensures var t := RedactTerm(s, env, u, term, replacement).0;
            && t.sources.Keys == s.sources.Keys
            && (forall i :: i in s.sources ==>
                  var x, x' := s.sources[i], t.sources[i];
                  var found := x.tenant == u
                    && ((x.title.Some? && Occurs(env.sqlFold, term, x.title.value))
                        || (x.owner.Some? && Occurs(env.sqlFold, term, x.owner.value)));
                  && x' == x.(title := x'.title, owner := x'.owner)
                  && x'.title.Some? == x.title.Some? && x'.owner.Some? == x.owner.Some?
                  && (x.title.Some? ==> Rewritten(env, term, replacement, found, x.title.value, x'.title.value))
                  && (x.owner.Some? ==> Rewritten(env, term, replacement, found, x.owner.value, x'.owner.value)))
  {
    hide Occurs, Keep, ChunkIds, ReplaceAll, Each, EntityHit, HitDocuments;
  }

  /** A term of fewer than two characters is refused and nothing is rewritten. */
  lemma ShortTermIsRefused(s: Store, env: Env, u: Name, term: string, replacement: string)
    ensures |term| < 2 <==> RedactTerm(s, env, u, term, replacement).1 == Some(Validation)
    ensures |term| < 2 ==> RedactTerm(s, env, u, term, replacement).0 == s
  {}
}
