/**
  `KnowledgeStore` in the form it is written in: statements and loops over the tables. Each method is tied to the
  operation of `KnowledgeModel` it performs. SQL statements that select rows by condition are single assignments.
 */
module KnowledgeService {
  import opened Basics
  import opened Redaction
  import opened Rows
  import opened KnowledgeModel
  import opened KnowledgeInvariant
  import opened KnowledgeSteps
  import KnowledgeEffects

  // ---------- deleting one document after another ----------

  lemma DeleteNone(s: Store)
    requires EntitiesOk(s)
    ensures DeleteDocuments(s, {}) == s
  {
    KeepIn(s.chunks, OfDocuments({}));
    KeepAll(s.chunks, NotOfDocuments({}));
    KeepAll(s.fts, FtsOutside({}));
    KeepAll(s.claims, ClaimOutside({}));
    assert ChunkIds(Keep(s.chunks, OfDocuments({}))) == {};
    assert (set m | m in s.mentions && m.chunkId !in {}) == s.mentions;
    assert (map k | k in s.entities && Mentioned(s.mentions, k) :: s.entities[k]) == s.entities;
  }

  lemma IdsOfUnion(chunks: seq<Chunk>, a: set<Id>, d: Id)
    requires d !in a
    ensures ChunkIds(Keep(chunks, OfDocuments(a + {d})))
         == ChunkIds(Keep(chunks, OfDocuments(a))) + ChunkIds(Keep(Keep(chunks, NotOfDocuments(a)), OfDocuments({d})))
  {
    KeepIn(chunks, OfDocuments(a + {d}));
    KeepIn(chunks, OfDocuments(a));
    KeepIn(chunks, NotOfDocuments(a));
    KeepIn(Keep(chunks, NotOfDocuments(a)), OfDocuments({d}));
    hide Keep;
  }

  /** The tables after deleting a set of documents and then one more. */
  lemma DeleteOneMoreRows(s: Store, a: set<Id>, d: Id)
    requires d !in a
    ensures var one, all := DeleteDocuments(DeleteDocuments(s, a), {d}), DeleteDocuments(s, a + {d});
            && one.fts == all.fts && one.chunks == all.chunks && one.claims == all.claims
            && one.documents == all.documents && one.mentions == all.mentions
            && one.mentions <= DeleteDocuments(s, a).mentions
  {
    var t := DeleteDocuments(s, a);
    IdsOfUnion(s.chunks, a, d);
    var idsA := ChunkIds(Keep(s.chunks, OfDocuments(a)));
    var idsD := ChunkIds(Keep(t.chunks, OfDocuments({d})));
    KeepTwice(s.fts, FtsOutside(idsA), FtsOutside(idsD), FtsOutside(idsA + idsD));
    KeepTwice(s.chunks, NotOfDocuments(a), NotOfDocuments({d}), NotOfDocuments(a + {d}));
    KeepTwice(s.claims, ClaimOutside(idsA), ClaimOutside(idsD), ClaimOutside(idsA + idsD));
    hide Keep, ChunkIds, Mentioned;
  }

  lemma SweptEntities(s: Store, ds: set<Id>)
    ensures var t := DeleteDocuments(s, ds);
            && t.entities == (map k | k in s.entities && Mentioned(t.mentions, k) :: s.entities[k])
            && t.sources == s.sources && t.nextId == s.nextId
  {
    hide Keep, ChunkIds, Mentioned;
  }

  /** Deleting a set of documents and then one more is deleting the larger set. */
  lemma DeleteOneMore(s: Store, a: set<Id>, d: Id)
    requires d !in a
    ensures DeleteDocuments(DeleteDocuments(s, a), {d}) == DeleteDocuments(s, a + {d})
  {
    hide DeleteDocuments, Mentioned;
    var t := DeleteDocuments(s, a);
    DeleteOneMoreRows(s, a, d);
    SweptEntities(s, a);
    SweptEntities(t, {d});
    SweptEntities(s, a + {d});
    SweepTwice(s.entities, t.mentions, DeleteDocuments(t, {d}).mentions);
  }

  lemma SweepTwice(entities: map<EntityKey, set<string>>, more: set<Mention>, fewer: set<Mention>)
    requires fewer <= more
    ensures var once := map k | k in entities && Mentioned(more, k) :: entities[k];
            (map k | k in once && Mentioned(fewer, k) :: once[k])
              == (map k | k in entities && Mentioned(fewer, k) :: entities[k])
  {
    var once := map k | k in entities && Mentioned(more, k) :: entities[k];
    forall k | k in entities && Mentioned(fewer, k) ensures k in once {
      var m :| m in fewer && m.entity == k;
      assert m in more;
    }
  }

  // ---------- mining step by step ----------

  lemma MineOneMore(s: Store, env: Env, chunks: seq<Chunk>, c: Chunk)
    ensures Mine(s, env, chunks + [c]) == Mine(Mine(s, env, chunks), env, [c])
  {
    var all := chunks + [c];
    assert all[..|chunks|] == chunks && [c][..0] == [];
    assert AllClaims(env, [c]) == ClaimsOf(env, c);
    assert s.claims + (AllClaims(env, chunks) + ClaimsOf(env, c))
      == s.claims + AllClaims(env, chunks) + ClaimsOf(env, c);
    assert AllClaims(env, all) == AllClaims(env, chunks) + ClaimsOf(env, c);
    var mid := MineEntities(env, s.entities, chunks);
    assert MineEntities(env, mid, [c]) == UpsertAll(MineEntities(env, mid, []), c.tenant, env.entities(c.text));
    assert MineEntities(env, s.entities, all) == UpsertAll(mid, c.tenant, env.entities(c.text));
    MentionsOneMore(env, chunks, c);
  }

  lemma MentionsOneMore(env: Env, chunks: seq<Chunk>, c: Chunk)
    ensures AllMentions(env, chunks + [c]) == AllMentions(env, chunks) + AllMentions(env, [c])
  {
    var all := chunks + [c];
    forall m ensures m in AllMentions(env, all) <==> m in AllMentions(env, chunks) || m in AllMentions(env, [c]) {
      if m in AllMentions(env, chunks) {
        var e :| e in chunks && m in MentionsOf(env, e);
        assert e in all;
      }
    }
  }

  lemma MineNothing(s: Store, env: Env)
    ensures Mine(s, env, []) == s
  {
    assert AllMentions(env, []) == {};
  }

  lemma EntitiesOfInv(s: Store)
    requires Inv(s)
    ensures EntitiesOk(s)
  {}

  lemma NextIdKept(s: Store, ds: set<Id>)
    ensures DeleteDocuments(s, ds).nextId == s.nextId
  {}

  /** Mining does not look at the chunk and full-text tables, so inserting before or after it is the same. */
  lemma MineFields(s: Store, env: Env, chunks: seq<Chunk>, n: nat)
    ensures Mine(s.(chunks := s.chunks + chunks, fts := s.fts + Each(chunks, MirrorRow()), nextId := s.nextId + n),
                 env, chunks)
         == Mine(s, env, chunks).(chunks := s.chunks + chunks, fts := s.fts + Each(chunks, MirrorRow()),
                                  nextId := s.nextId + n)
  {}

  /** The store once these chunks are inserted, with their full-text rows, and mined unless the document is poisoned. */
  ghost function Inserted(s: Store, env: Env, added: seq<Chunk>, poisoned: bool): Store {
    Mine(s, env, if poisoned then [] else added).(
      chunks := s.chunks + added, fts := s.fts + Each(added, MirrorRow()), nextId := s.nextId + |added|)
  }

  lemma InsertedNothing(s: Store, env: Env, poisoned: bool)
    ensures Inserted(s, env, [], poisoned) == s
  {
    MineNothing(s, env);
    assert Each([], MirrorRow()) == [];
  }

  lemma InsertedOneMore(s: Store, env: Env, added: seq<Chunk>, c: Chunk, poisoned: bool)
    ensures Inserted(s, env, added + [c], poisoned) == Inserted(Inserted(s, env, added, poisoned), env, [c], poisoned)
  {
    var t := Inserted(s, env, added, poisoned);
    EachConcat(added, [c], MirrorRow());
    hide Each;
    assert s.chunks + (added + [c]) == s.chunks + added + [c];
    assert s.fts + Each(added + [c], MirrorRow()) == s.fts + Each(added, MirrorRow()) + Each([c], MirrorRow());
    if poisoned {
      MineNothing(s, env);
      MineNothing(t, env);
    } else {
      MineOneMore(s, env, added, c);
    }
  }

  // ---------- redacting chunk by chunk ----------

  /** The chunk table once the chunks in `done` have been rewritten. */
  ghost function ChunksAfter(rows: seq<Chunk>, done: seq<Chunk>, f: Chunk -> Chunk): seq<Chunk> {
    Each(rows, (c: Chunk) => if c in done then f(c) else c)
  }

  /** The full-text table once the rows of the chunks in `done` have been replaced. */
  ghost function FtsAfter(fts: seq<FtsRow>, done: seq<Chunk>, f: Chunk -> Chunk): seq<FtsRow> {
    Keep(fts, FtsOutside(ChunkIds(done))) + Each(Each(done, f), MirrorRow())
  }

  /** `UPDATE ... WHERE id = ?` */
  function Overwrite(c: Chunk): Chunk -> Chunk { (e: Chunk) => if e.id == c.id then c else e }

  lemma ChunksAfterOneMore(rows: seq<Chunk>, done: seq<Chunk>, c: Chunk, f: Chunk -> Chunk)
    requires Distinct(rows) && c in rows && c !in done && forall e :: e in done ==> e in rows
    requires forall e :: f(e).id == e.id
    ensures ChunksAfter(rows, done + [c], f)
         == Each(ChunksAfter(rows, done, f), Overwrite(f(c)))
  {
    DistinctUnique(rows);
    hide Distinct;
    forall i | 0 <= i < |rows|
      ensures ChunksAfter(rows, done + [c], f)[i]
           == Each(ChunksAfter(rows, done, f), Overwrite(f(c)))[i]
    {
      assert rows[i] in rows;
    }
  }

  lemma FtsAfterOneMore(fts: seq<FtsRow>, done: seq<Chunk>, c: Chunk, f: Chunk -> Chunk)
    requires forall e :: e in done ==> e.id != c.id
    requires forall e :: f(e).id == e.id
    ensures FtsAfter(fts, done + [c], f) == Keep(FtsAfter(fts, done, f), FtsOutside({c.id})) + [MirrorRow()(f(c))]
  {
    hide Keep, Each, ChunkIds, Distinct;
    var rest := Keep(fts, FtsOutside(ChunkIds(done)));
    var added := Each(Each(done, f), MirrorRow());
    RewrittenRowsStay(done, c, f);
    AddedOneMore(done, c, f);
    KeepTwice(fts, FtsOutside(ChunkIds(done)), FtsOutside({c.id}), FtsOutside(ChunkIds(done + [c])));
    KeepConcat(rest, added, FtsOutside({c.id}));
    assert rest + added + [MirrorRow()(f(c))] == rest + (added + [MirrorRow()(f(c))]);
  }

  lemma RewrittenRowsStay(done: seq<Chunk>, c: Chunk, f: Chunk -> Chunk)
    requires forall e :: e in done ==> e.id != c.id
    requires forall e :: f(e).id == e.id
    ensures ChunkIds(done + [c]) == ChunkIds(done) + {c.id}
    ensures Keep(Each(Each(done, f), MirrorRow()), FtsOutside({c.id})) == Each(Each(done, f), MirrorRow())
  {
    var added := Each(Each(done, f), MirrorRow());
    forall r | r in added ensures FtsOutside({c.id})(r) {
      var i :| 0 <= i < |done| && r == MirrorRow()(f(done[i]));
      assert done[i] in done;
    }
    KeepAll(added, FtsOutside({c.id}));
  }

  lemma AddedOneMore(done: seq<Chunk>, c: Chunk, f: Chunk -> Chunk)
    ensures Each(Each(done + [c], f), MirrorRow()) == Each(Each(done, f), MirrorRow()) + [MirrorRow()(f(c))]
  {}

  lemma NothingRewritten(rows: seq<Chunk>, fts: seq<FtsRow>, f: Chunk -> Chunk)
    ensures ChunksAfter(rows, [], f) == rows && FtsAfter(fts, [], f) == fts
  {
    KeepAll(fts, FtsOutside({}));
    assert ChunkIds([]) == {};
  }

  /** With every found chunk rewritten, the chunk table is the one `RedactTerm` describes. */
  lemma ChunksAfterAll(rows: seq<Chunk>, hits: Chunk -> bool, f: Chunk -> Chunk)
    requires forall c :: !hits(c) ==> f(c) == c
    ensures ChunksAfter(rows, Keep(rows, hits), f) == Each(rows, f)
  {
    KeepIn(rows, hits);
    forall i | 0 <= i < |rows| ensures ChunksAfter(rows, Keep(rows, hits), f)[i] == Each(rows, f)[i] {
      assert rows[i] in rows;
    }
  }

  lemma {:induction false} KeptAreDistinct(rows: seq<Chunk>)
    requires Distinct(rows)
    ensures forall i, j :: 0 <= i < j < |rows| ==> rows[i].id != rows[j].id
  {
    if rows != [] {
      KeptAreDistinct(rows[1..]);
      forall i, j | 0 <= i < j < |rows| ensures rows[i].id != rows[j].id {
        assert rows[j] == rows[1..][j - 1] && rows[j] in rows[1..];
        if i > 0 {
          assert rows[i] == rows[1..][i - 1];
        }
      }
    }
  }

  lemma ChunksOfInv(s: Store)
    requires Inv(s)
    ensures Distinct(s.chunks)
  {}

  // ---------- the service ----------

  class KnowledgeStore {
    const env: Env
    var sources: map<Id, Source>
    var documents: map<Id, Document>
    var chunks: seq<Chunk>
    var fts: seq<FtsRow>
    var claims: seq<Claim>
    var entities: map<EntityKey, set<string>>
    var mentions: set<Mention>
    var nextId: Id

    function View(): Store
      reads this
    {
      Store(sources, documents, chunks, fts, claims, entities, mentions, nextId)
    }

    ghost predicate Valid()
      reads this
    {
      Inv(View()) && EnvOk(env)
    }

    constructor (env: Env)
      requires EnvOk(env)
      ensures this.env == env && View() == EMPTY && Valid()
    {
      this.env := env;
      sources, documents, chunks, fts, claims, entities, mentions, nextId := map[], map[], [], [], [], map[], {}, 0;
    }

    method DeleteDocumentRows(d: Id)
      modifies this
      ensures View() == DeleteDocuments(old(View()), {d})
    {
      var ids := ChunkIds(Keep(chunks, OfDocuments({d})));
      fts := Keep(fts, FtsOutside(ids));
      // DELETE FROM documents, with its cascades
      documents := documents - {d};
      chunks := Keep(chunks, NotOfDocuments({d}));
      claims := Keep(claims, ClaimOutside(ids));
      mentions := set m | m in mentions && m.chunkId !in ids;
      // DELETE FROM entities WHERE id NOT IN (SELECT entity_id FROM entity_mentions)
      entities := map k | k in entities && Mentioned(mentions, k) :: entities[k];
    }

    method DeleteAll(ds: set<Id>)
      requires EntitiesOk(View())
      modifies this
      ensures View() == DeleteDocuments(old(View()), ds)
    {
      ghost var start := View();
      DeleteNone(start);
      var todo := ds;
      assert ds - ds == {};
      while todo != {}
        invariant todo <= ds
        invariant View() == DeleteDocuments(start, ds - todo)
        decreases todo
      {
        var d :| d in todo;
        DeleteOneMore(start, ds - todo, d);
        DeleteDocumentRows(d);
        assert (ds - todo) + {d} == ds - (todo - {d});
        todo := todo - {d};
      }
      assert ds - {} == ds;
    }

    /** Claims and entities of one chunk, as both `ingest` and `#extractClaimsAndEntities` collect them. */
    method MineChunk(c: Chunk)
      modifies this`claims, this`entities, this`mentions
      ensures View() == Mine(old(View()), env, [c])
    {
      ghost var start := View();
      var found := env.claims(c.text);
      for i := 0 to |found|
        invariant claims == start.claims + ClaimsOf(env, c)[..i] && mentions == start.mentions
             && entities == start.entities
      {
        claims := claims + [Claim(c.tenant, c.id, c.documentId, found[i].text, found[i].kind)];
        assert ClaimsOf(env, c)[..i + 1] == ClaimsOf(env, c)[..i] + [ClaimsOf(env, c)[i]];
      }
      assert ClaimsOf(env, c)[..|found|] == ClaimsOf(env, c);
      UpsertChunk(c, env.entities(c.text));
      MineOneChunk(start, c);
    }

    /** The resolved entities of a chunk: insert or ignore, widen the aliases, record the mentions. */
    method UpsertChunk(c: Chunk, resolved: seq<Resolved>)
      modifies this`entities, this`mentions
      ensures entities == UpsertAll(old(entities), c.tenant, resolved)
      ensures mentions == old(mentions) + MentionsIn(c, resolved)
    {
      for i := 0 to |resolved|
        invariant entities == UpsertAll(old(entities), c.tenant, resolved[..i])
        invariant mentions == old(mentions) + MentionsIn(c, resolved[..i])
      {
        var r := resolved[i];
        var k := EntityKey(c.tenant, r.canonical, r.kind);
        ghost var before := entities;
        if k !in entities {
          entities := entities[k := r.surfaces];
        }
        entities := entities[k := entities[k] + r.surfaces];
        assert r.surfaces + r.surfaces == {} + r.surfaces;
        assert entities == Upsert(before, k, r.surfaces);
        assert resolved[..i + 1][..i] == resolved[..i] && resolved[..i + 1] == resolved[..i] + [r];
        mentions := mentions + set s | s in r.surfaces :: Mention(k, c.id, s);
        assert MentionsIn(c, resolved[..i + 1])
          == MentionsIn(c, resolved[..i]) + set s | s in r.surfaces :: Mention(k, c.id, s);
      }
      assert resolved[..|resolved|] == resolved;
    }

    static function MentionsIn(c: Chunk, resolved: seq<Resolved>): set<Mention> {
      set r, s | r in resolved && s in r.surfaces :: Mention(EntityKey(c.tenant, r.canonical, r.kind), c.id, s)
    }

    lemma MineOneChunk(s: Store, c: Chunk)
      ensures AllClaims(env, [c]) == ClaimsOf(env, c) && AllMentions(env, [c]) == MentionsOf(env, c)
      ensures MineEntities(env, s.entities, [c]) == UpsertAll(s.entities, c.tenant, env.entities(c.text))
    {
      assert [c][..0] == [];
    }

    /**
      The chunks of a freshly inserted document, each with its full-text row, mined unless the document is poisoned.
     */
    method InsertPieces(tenant: Name, document: Id, pieces: seq<Piece>, poisoned: bool)
      modifies this
      ensures View() == Inserted(old(View()), env, NewChunks(tenant, document, old(nextId), pieces), poisoned)
    {
      hide Inserted, Mine, View, Each;
      ghost var start := View();
      ghost var added := NewChunks(tenant, document, start.nextId, pieces);
      InsertedNothing(start, env, poisoned);
      NextIdOfView();
      for i := 0 to |pieces|
        invariant View() == Inserted(start, env, added[..i], poisoned)
        invariant nextId == start.nextId + i
      {
        var c := Chunk(nextId, tenant, document, i, pieces[i].heading, pieces[i].text);
        assert added[..i + 1] == added[..i] + [c];
        InsertedOneMore(start, env, added[..i], c, poisoned);
        InsertChunk(c, poisoned);
      }
      assert added[..|pieces|] == added;
    }

    lemma NextIdOfView()
      ensures View().nextId == nextId
    {}

    method InsertChunk(c: Chunk, poisoned: bool)
      modifies this
      ensures View() == Inserted(old(View()), env, [c], poisoned)
      ensures nextId == old(nextId) + 1
    {
      MineNothing(View(), env);
      MineFields(View(), env, [c], 1);
      assert Each([c], MirrorRow()) == [MirrorRow()(c)];
      nextId := nextId + 1;
      chunks := chunks + [c];
      fts := fts + [FtsRow(c.text, c.heading, c.id, c.tenant)];
      hide Mine, Each;
      if !poisoned {
        MineChunk(c);
      }
    }

    method IngestContent(tenant: Name, source: Id, content: string, flagged: bool) returns (error: Option<Error>)
      requires Valid()
      modifies this
      ensures (View(), error) == Ingest(old(View()), env, tenant, source, content, flagged)
      ensures Valid()
    {
      hide Inv, DeleteDocuments, Mine, NewChunks, Each, Keep;
      ghost var start := View();
      IngestKeeps(start, env, tenant, source, content, flagged);
      if source !in sources || sources[source].tenant != tenant {
        return Some(NotFound);
      }
      if exists d :: d in documents && documents[d].tenant == tenant && documents[d].sourceId == source
                     && documents[d].fingerprint == env.sha(content)
      {
        return None;
      }
      var page := env.extract(content);
      EntitiesOfInv(start);
      DeleteAll(set d | d in documents && documents[d].tenant == tenant && documents[d].sourceId == source);
      NextIdKept(start, Superseded(start, tenant, source));
      var document := NewDocumentRow(NewDocument(env, tenant, source, content, flagged));
      ghost var inserted := View();
      InsertPieces(tenant, document, page.pieces, env.poisoned(page.text));
      MineNothing(inserted, env);
      MineFields(inserted, env, NewChunks(tenant, document, document + 1, page.pieces), |page.pieces|);
      return None;
    }

    method NewDocumentRow(d: Document) returns (id: Id)
      modifies this`documents, this`nextId
      ensures id == old(nextId)
      ensures View() == old(View()).(documents := old(documents)[id := d], nextId := id + 1)
    {
      id := nextId;
      nextId := nextId + 1;
      documents := documents[id := d];
    }

    method RemoveSource(tenant: Name, id: Id) returns (error: Option<Error>)
      requires Valid()
      modifies this
      ensures (View(), error) == DeleteSource(old(View()), tenant, id)
      ensures Valid()
    {
      DeleteSourceKeeps(View(), tenant, id);
      if id !in sources || sources[id].tenant != tenant {
        return Some(NotFound);
      }
      DeleteAll(set d | d in documents && documents[d].sourceId == id);
      sources := sources - {id};
      return None;
    }

    method SetQuarantineOn(tenant: Name, id: Id, hold: bool) returns (error: Option<Error>)
      requires Valid()
      modifies this
      ensures (View(), error) == SetQuarantine(old(View()), env, tenant, id, hold)
      ensures Valid()
    {
      hide Inv, EnvOk, Keep, ChunkIds, Mine;
      QuarantineKeeps(View(), env, tenant, id, hold);
      if id !in documents || documents[id].tenant != tenant {
        return Some(NotFound);
      }
      var was := documents[id].quarantine;
      documents := documents[id := documents[id].(quarantine := hold)];
      if !hold && was {
        Extract(id);
      } else if hold && !was {
        claims := Keep(claims, ClaimNotOfDocument(id));
        var ids := ChunkIds(Keep(chunks, OfDocuments({id})));
        mentions := set m | m in mentions && m.chunkId !in ids;
        entities := map k | k in entities && (k.tenant != tenant || Mentioned(mentions, k)) :: entities[k];
      }
      return None;
    }

    /** `#extractClaimsAndEntities`: clear the document's claims, then mine its chunks one by one. */
    method Extract(id: Id)
      modifies this`claims, this`entities, this`mentions
      ensures View() == Mine(old(View()).(claims := Keep(old(claims), ClaimNotOfDocument(id))), env,
                             Keep(old(chunks), OfDocuments({id})))
    {
      hide Mine, Keep;
      claims := Keep(claims, ClaimNotOfDocument(id));
      ghost var start := View();
      var own := Keep(chunks, OfDocuments({id}));
      MineNothing(start, env);
      for i := 0 to |own|
        invariant View() == Mine(start, env, own[..i])
      {
        assert own[..i + 1] == own[..i] + [own[i]];
        MineOneMore(start, env, own[..i], own[i]);
        MineChunk(own[i]);
      }
      assert own[..|own|] == own;
    }

    method EraseTenantRows(tenant: Name)
      requires Valid()
      modifies this
      ensures View() == EraseTenant(old(View()), tenant)
      ensures Valid() && KnowledgeEffects.NothingOf(View(), tenant)
    {
      hide Inv, Keep, EnvOk, KnowledgeEffects.NothingOf;
      ghost var start := View();
      EraseKeeps(start, tenant);
      KnowledgeEffects.TenantIsErased(start, tenant);
      EraseStatements(tenant);
      assert View() == EraseTenant(start, tenant);
    }

    /** The deletes of `eraseTenant`, in its order. */
    method EraseStatements(tenant: Name)
      modifies this
      ensures View() == EraseTenant(old(View()), tenant)
    {
      hide Keep;
      fts := Keep(fts, FtsOfOthers(tenant));
      mentions := set m | m in mentions && m.entity.tenant != tenant;
      claims := Keep(claims, ClaimOfOthers(tenant));
      chunks := Keep(chunks, ChunkOfOthers(tenant));
      documents := map d | d in documents && documents[d].tenant != tenant :: documents[d];
      sources := map x | x in sources && sources[x].tenant != tenant :: sources[x];
      entities := map k | k in entities && k.tenant != tenant :: entities[k];
    }

    /**
      `redactTerm`: the found chunks one by one, each with its full-text row; then claims, documents, sources,
      entities.
     */
    method RedactTermIn(tenant: Name, term: string, replacement: string) returns (error: Option<Error>)
      requires Valid()
      modifies this
      ensures (View(), error) == RedactTerm(old(View()), env, tenant, term, replacement)
      ensures Valid()
    {
      hide Inv, RedactTerm, Distinct;
      ghost var start := View();
      RedactKeeps(start, env, tenant, term, replacement);
      ChunksOfInv(start);
      error := RedactStatements(tenant, term, replacement);
    }

    method RedactStatements(tenant: Name, term: string, replacement: string) returns (error: Option<Error>)
      requires Distinct(chunks)
      modifies this
      ensures (View(), error) == RedactTerm(old(View()), env, tenant, term, replacement)
    {
      hide ChunkHit, ClaimHit, EntityHit, DocumentHit, SourceHit, Scrub, ScrubOption, Keep, Each, Distinct;
      if |term| < 2 {
        return Some(Validation);
      }
      var ds := RewriteChunks(tenant, term, replacement);
      claims := Each(claims, ScrubClaim(env, tenant, term, replacement));
      ds := ds + set d | d in documents && DocumentHit(env, tenant, term, documents[d]);
      documents := map d | d in documents ::
        if d in ds
        then documents[d].(content := Scrub(env, term, replacement, documents[d].content),
                           title := ScrubOption(env, term, replacement, documents[d].title))
        else documents[d];
      sources := map x | x in sources ::
        if SourceHit(env, tenant, term, sources[x])
        then sources[x].(title := ScrubOption(env, term, replacement, sources[x].title),
                         owner := ScrubOption(env, term, replacement, sources[x].owner))
        else sources[x];
      var gone := set k | k in entities && EntityHit(env, tenant, term, k, entities[k]);
      entities := entities - gone;
      mentions := set m | m in mentions && m.entity !in gone;
      return None;
    }

    /** Rewrites every found chunk and its full-text row, and collects the documents they belong to. */
    method RewriteChunks(tenant: Name, term: string, replacement: string) returns (ds: set<Id>)
      requires |term| >= 2 && Distinct(chunks)
      modifies this`chunks, this`fts
      ensures var hit := Keep(old(chunks), HitChunks(env, tenant, term));
              var f := ScrubChunk(env, tenant, term, replacement);
              && chunks == Each(old(chunks), f)
              && fts == Keep(old(fts), FtsOutside(ChunkIds(hit))) + Each(Each(hit, f), MirrorRow())
      ensures ds == set c | c in old(chunks) && ChunkHit(env, tenant, term, c) :: c.documentId
    {
      hide Keep, Distinct, Each, ScrubChunk, HitChunks, ChunksAfter, FtsAfter, ChunkHit, Scrub, Overwrite;
      var found := Keep(chunks, HitChunks(env, tenant, term));
      ghost var f := ScrubChunk(env, tenant, term, replacement);
      ghost var rows, mirror := chunks, fts;
      FoundChunks(rows, tenant, term, replacement);
      NothingRewritten(rows, mirror, f);
      ds := {};
      for i := 0 to |found|
        invariant chunks == ChunksAfter(rows, found[..i], f)
        invariant fts == FtsAfter(mirror, found[..i], f)
        invariant ds == set c | c in found[..i] :: c.documentId
      {
        var c := found[i];
        assert c in found && found[..i + 1] == found[..i] + [c];
        ChunksAfterOneMore(rows, found[..i], c, f);
        FtsAfterOneMore(mirror, found[..i], c, f);
        RewriteChunk(c.(text := Scrub(env, term, replacement, c.text),
                        heading := Scrub(env, term, replacement, c.heading)));
        ds := ds + {c.documentId};
      }
      assert found[..|found|] == found;
      AllRewritten(rows, mirror, tenant, term, replacement);
    }

    /** UPDATE the chunk, DELETE and INSERT its full-text row. */
    method RewriteChunk(c: Chunk)
      modifies this`chunks, this`fts
      ensures chunks == Each(old(chunks), Overwrite(c))
      ensures fts == Keep(old(fts), FtsOutside({c.id})) + [MirrorRow()(c)]
    {
      chunks := Each(chunks, Overwrite(c));
      fts := Keep(fts, FtsOutside({c.id})) + [FtsRow(c.text, c.heading, c.id, c.tenant)];
    }

    /** The found chunks: hits of the table, with distinct ids, which scrubbing keeps. */
    lemma FoundChunks(rows: seq<Chunk>, tenant: Name, term: string, replacement: string)
      requires |term| >= 2 && Distinct(rows)
      ensures var found := Keep(rows, HitChunks(env, tenant, term));
              var f := ScrubChunk(env, tenant, term, replacement);
              && (forall c :: c in found <==> c in rows && ChunkHit(env, tenant, term, c))
              && (forall i, j :: 0 <= i < j < |found| ==> found[i].id != found[j].id)
              && (forall c :: f(c).id == c.id)
              && (forall c :: c in found ==>
                    f(c) == c.(text := Scrub(env, term, replacement, c.text),
                               heading := Scrub(env, term, replacement, c.heading)))
    {
      hide ChunkHit, Scrub;
      KeepIn(rows, HitChunks(env, tenant, term));
      KeepDistinct(rows, HitChunks(env, tenant, term));
      KeptAreDistinct(Keep(rows, HitChunks(env, tenant, term)));
    }

    lemma AllRewritten(rows: seq<Chunk>, mirror: seq<FtsRow>, tenant: Name, term: string, replacement: string)
      requires |term| >= 2
      ensures var found := Keep(rows, HitChunks(env, tenant, term));
              var f := ScrubChunk(env, tenant, term, replacement);
              && ChunksAfter(rows, found, f) == Each(rows, f)
              && FtsAfter(mirror, found, f)
                   == Keep(mirror, FtsOutside(ChunkIds(found))) + Each(Each(found, f), MirrorRow())
    {
      hide ChunkHit, Scrub, Keep;
      ChunksAfterAll(rows, HitChunks(env, tenant, term), ScrubChunk(env, tenant, term, replacement));
    }

    method AddSourceRow(tenant: Name, locator: string, title: Option<string>, owner: Option<string>)
      requires Valid()
      modifies this
      ensures View() == AddSource(old(View()), tenant, locator, title, owner)
      ensures Valid()
    {
      AddSourceKeeps(View(), tenant, locator, title, owner);
      var row := Source(tenant, locator, title, owner);
      if exists x :: x in sources && IsSource(sources[x], tenant, locator) {
        sources := map x | x in sources :: if IsSource(sources[x], tenant, locator) then row else sources[x];
      } else {
        sources := sources[nextId := row];
        nextId := nextId + 1;
      }
    }
  }
}
