/** The invariant of the knowledge store and the fact that every operation keeps it. */
module KnowledgeInvariant {
  import opened Basics
  import opened Redaction
  import opened Rows
  import opened KnowledgeModel

  // ---------- distinct chunk ids ----------

  predicate Distinct(rows: seq<Chunk>) {
    rows != [] ==> (forall c :: c in rows[1..] ==> c.id != rows[0].id) && Distinct(rows[1..])
  }

  lemma {:induction false} DistinctUnique(rows: seq<Chunk>)
    requires Distinct(rows)
    ensures forall c, e :: c in rows && e in rows && c.id == e.id ==> c == e
  {
    if rows != [] {
      DistinctUnique(rows[1..]);
      assert forall c :: c in rows <==> c == rows[0] || c in rows[1..];
    }
  }

  lemma {:induction false} KeepDistinct(rows: seq<Chunk>, p: Chunk -> bool)
    requires Distinct(rows)
    ensures Distinct(Keep(rows, p))
  {
    if rows != [] {
      KeepDistinct(rows[1..], p);
      KeepIn(rows[1..], p);
      var kept := Keep(rows[1..], p);
      assert p(rows[0]) ==> ([rows[0]] + kept)[1..] == kept;
      assert !p(rows[0]) ==> [] + kept == kept;
    }
  }

  lemma {:induction false} EachDistinct(rows: seq<Chunk>, f: Chunk -> Chunk)
    requires Distinct(rows) && forall c :: c in rows ==> f(c).id == c.id
    ensures Distinct(Each(rows, f))
  {
    if rows != [] {
      assert Each(rows, f)[1..] == Each(rows[1..], f);
      assert forall c :: c in rows[1..] ==> c in rows;
      EachDistinct(rows[1..], f);
      forall e | e in Each(rows[1..], f) ensures e.id != Each(rows, f)[0].id {
        var i :| 0 <= i < |rows[1..]| && e == f(rows[1..][i]);
        assert rows[1..][i] in rows[1..];
        assert rows[0] in rows;
      }
    }
  }

  lemma {:induction false} ConcatDistinct(a: seq<Chunk>, b: seq<Chunk>)
    requires Distinct(a) && Distinct(b) && forall c, e :: c in a && e in b ==> c.id != e.id
    ensures Distinct(a + b)
  {
    if a == [] {
      assert a + b == b;
    } else {
      assert (a + b)[1..] == a[1..] + b;
      assert forall c :: c in a[1..] ==> c in a;
      ConcatDistinct(a[1..], b);
      assert a[0] in a;
    }
  }

  lemma {:induction false} AscendingDistinct(rows: seq<Chunk>)
    requires forall i, j :: 0 <= i < j < |rows| ==> rows[i].id < rows[j].id
    ensures Distinct(rows)
  {
    if rows != [] {
      AscendingDistinct(rows[1..]);
      forall c | c in rows[1..] ensures c.id != rows[0].id {
        var j :| 0 <= j < |rows[1..]| && rows[1..][j] == c;
        assert rows[0].id < rows[j + 1].id;
      }
    }
  }

  // ---------- the invariant ----------

  predicate KeysOk(s: Store) {
    && (forall x :: x in s.sources ==> x < s.nextId)
    && (forall d :: d in s.documents ==> d < s.nextId)
    && (forall c :: c in s.chunks ==> c.id < s.nextId)
    && Distinct(s.chunks)
  }

  /** Documents belong to a source of their tenant, and a source has at most one. */
  predicate DocumentsOk(s: Store) {
    && (forall d :: d in s.documents ==> HasSource(s, s.documents[d].tenant, s.documents[d].sourceId))
    && (forall d, e | d in s.documents && e in s.documents ::
          s.documents[d].sourceId == s.documents[e].sourceId ==> d == e)
  }

  predicate ChunksOk(s: Store) {
    forall c :: c in s.chunks ==> HasDocument(s, c.tenant, c.documentId)
  }

  /** The full-text table is the chunk table, row for row. */
  predicate MirrorOk(s: Store) {
    multiset(s.fts) == multiset(Each(s.chunks, MirrorRow()))
  }

  predicate OwnsClaim(c: Chunk, k: Claim) {
    c.id == k.chunkId && c.documentId == k.documentId && c.tenant == k.tenant
  }

  predicate ClaimsOk(s: Store) {
    forall k :: k in s.claims ==> exists c :: c in s.chunks && OwnsClaim(c, k)
  }

  predicate OwnsMention(c: Chunk, m: Mention) {
    c.id == m.chunkId && c.tenant == m.entity.tenant
  }

  predicate MentionsOk(s: Store) {
    forall m :: m in s.mentions ==> m.entity in s.entities && exists c :: c in s.chunks && OwnsMention(c, m)
  }

  /** No entity is an orphan. */
  predicate EntitiesOk(s: Store) {
    forall k :: k in s.entities ==> Mentioned(s.mentions, k)
  }

  predicate Inv(s: Store) {
    KeysOk(s) && DocumentsOk(s) && ChunksOk(s) && MirrorOk(s) && ClaimsOk(s) && MentionsOk(s) && EntitiesOk(s)
  }

  /** What entity recognition guarantees: a resolved entity has a surface form. */
  ghost predicate EnvOk(env: Env) {
    forall text, r | r in env.entities(text) :: r.surfaces != {}
  }

  lemma InitInv()
    ensures Inv(EMPTY)
  {}

  // ---------- deleting documents ----------

  lemma IdsOfKept(chunks: seq<Chunk>, ds: set<Id>)
    requires Distinct(chunks)
    ensures forall c :: c in chunks ==> (c.id in ChunkIds(Keep(chunks, OfDocuments(ds))) <==> c.documentId in ds)
  {
    KeepIn(chunks, OfDocuments(ds));
    DistinctUnique(chunks);
  }

  lemma MirrorKept(chunks: seq<Chunk>, fts: seq<FtsRow>, p: Chunk -> bool, q: FtsRow -> bool)
    requires multiset(fts) == multiset(Each(chunks, MirrorRow()))
    requires forall c :: c in chunks ==> p(c) == q(MirrorRow()(c))
    ensures multiset(Keep(fts, q)) == multiset(Each(Keep(chunks, p), MirrorRow()))
  {
    KeepBag(fts, Each(chunks, MirrorRow()), q);
    EachKeep(chunks, MirrorRow(), p, q);
  }

  /** Which rows are left after deleting documents. */
  lemma DeletedRows(s: Store, ds: set<Id>)
    requires Distinct(s.chunks)
    ensures var t := DeleteDocuments(s, ds);
            && Distinct(t.chunks)
            && (forall c :: c in t.chunks <==> c in s.chunks && c.documentId !in ds)
            && (forall k :: k in t.claims ==>
                  k in s.claims && forall c :: c in s.chunks && c.id == k.chunkId ==> c in t.chunks)
            && (forall m :: m in t.mentions ==>
                  m in s.mentions && forall c :: c in s.chunks && c.id == m.chunkId ==> c in t.chunks)
  {
    var ids := ChunkIds(Keep(s.chunks, OfDocuments(ds)));
    IdsOfKept(s.chunks, ds);
    KeepIn(s.chunks, NotOfDocuments(ds));
    KeepIn(s.claims, ClaimOutside(ids));
    KeepDistinct(s.chunks, NotOfDocuments(ds));
    hide Keep, ChunkIds, Distinct;
  }

  lemma DeleteKeepsRows(s: Store, ds: set<Id>)
    requires KeysOk(s) && DocumentsOk(s) && ChunksOk(s)
    ensures var t := DeleteDocuments(s, ds); KeysOk(t) && DocumentsOk(t) && ChunksOk(t)
  {
    DeletedRows(s, ds);
    hide Keep, ChunkIds, Distinct;
  }

  lemma DeleteKeepsClaims(s: Store, ds: set<Id>)
    requires Distinct(s.chunks) && ClaimsOk(s)
    ensures ClaimsOk(DeleteDocuments(s, ds))
  {
    var t := DeleteDocuments(s, ds);
    DeletedRows(s, ds);
    hide DeleteDocuments, Distinct;
    forall k | k in t.claims ensures exists c :: c in t.chunks && OwnsClaim(c, k) {
      var c :| c in s.chunks && OwnsClaim(c, k);
      assert c in t.chunks;
    }
  }

  lemma DeleteKeepsMentions(s: Store, ds: set<Id>)
    requires Distinct(s.chunks) && MentionsOk(s)
    ensures MentionsOk(DeleteDocuments(s, ds)) && EntitiesOk(DeleteDocuments(s, ds))
  {
    var t := DeleteDocuments(s, ds);
    DeletedRows(s, ds);
    assert forall m :: m in t.mentions ==> m.entity in t.entities;
    assert EntitiesOk(t);
    hide DeleteDocuments, Distinct;
    forall m | m in t.mentions ensures exists c :: c in t.chunks && OwnsMention(c, m) {
      var c :| c in s.chunks && OwnsMention(c, m);
      assert c in t.chunks;
    }
  }

  lemma DeleteKeeps(s: Store, ds: set<Id>)
    requires Inv(s)
    ensures Inv(DeleteDocuments(s, ds))
  {
    hide DeleteDocuments, Distinct, MirrorOk, ClaimsOk, MentionsOk, EntitiesOk, ChunksOk, DocumentsOk;
    DeleteKeepsRows(s, ds);
    DeleteKeepsMirror(s, ds);
    DeleteKeepsClaims(s, ds);
    DeleteKeepsMentions(s, ds);
  }

  lemma DeleteKeepsMirror(s: Store, ds: set<Id>)
    requires MirrorOk(s) && Distinct(s.chunks)
    ensures MirrorOk(DeleteDocuments(s, ds))
  {
    var ids := ChunkIds(Keep(s.chunks, OfDocuments(ds)));
    IdsOfKept(s.chunks, ds);
    MirrorKept(s.chunks, s.fts, NotOfDocuments(ds), FtsOutside(ids));
  }

  // ---------- mining ----------

  lemma {:induction false} AllClaimsOwned(env: Env, chunks: seq<Chunk>)
    ensures forall k :: k in AllClaims(env, chunks) ==> exists c :: c in chunks && OwnsClaim(c, k)
  {
    if chunks != [] {
      var n := |chunks| - 1;
      AllClaimsOwned(env, chunks[..n]);
      forall k | k in AllClaims(env, chunks) ensures exists c :: c in chunks && OwnsClaim(c, k) {
        if k in AllClaims(env, chunks[..n]) {
          var c :| c in chunks[..n] && OwnsClaim(c, k);
          assert c in chunks;
        } else {
          assert k in ClaimsOf(env, chunks[n]);
          assert OwnsClaim(chunks[n], k) && chunks[n] in chunks;
        }
      }
    }
  }

  /** Upserting adds the keys of the resolved entities and no others. */
  lemma {:induction false} UpsertAllKeys(entities: map<EntityKey, set<string>>, tenant: Name, rs: seq<Resolved>)
    ensures UpsertAll(entities, tenant, rs).Keys
         == entities.Keys + set r | r in rs :: EntityKey(tenant, r.canonical, r.kind)
    ensures forall k :: k in entities && k.tenant != tenant ==> UpsertAll(entities, tenant, rs)[k] == entities[k]
  {
    if rs != [] {
      var n := |rs| - 1;
      UpsertAllKeys(entities, tenant, rs[..n]);
      assert rs == rs[..n] + [rs[n]];
    }
  }

  predicate IsMinedKey(env: Env, chunks: seq<Chunk>, k: EntityKey) {
    exists c, r :: c in chunks && r in env.entities(c.text) && k == EntityKey(c.tenant, r.canonical, r.kind)
  }

  lemma {:induction false} MineEntitiesKeys(env: Env, entities: map<EntityKey, set<string>>, chunks: seq<Chunk>)
    ensures forall k :: k in MineEntities(env, entities, chunks) <==> k in entities || IsMinedKey(env, chunks, k)
  {
    if chunks != [] {
      var n := |chunks| - 1;
      var c := chunks[n];
      var before := MineEntities(env, entities, chunks[..n]);
      MineEntitiesKeys(env, entities, chunks[..n]);
      UpsertAllKeys(before, c.tenant, env.entities(c.text));
      assert forall e :: e in chunks <==> e in chunks[..n] || e == c;
      forall k ensures k in MineEntities(env, entities, chunks) <==> k in entities || IsMinedKey(env, chunks, k) {
        if k in before && k !in entities {
          var e, r :| e in chunks[..n] && r in env.entities(e.text) && k == EntityKey(e.tenant, r.canonical, r.kind);
          assert e in chunks;
        }
      }
    }
  }

  lemma MinedMentions(env: Env, chunks: seq<Chunk>)
    requires EnvOk(env)
    ensures forall m :: m in AllMentions(env, chunks) ==>
      IsMinedKey(env, chunks, m.entity) && exists c :: c in chunks && OwnsMention(c, m)
    ensures forall k :: IsMinedKey(env, chunks, k) ==> Mentioned(AllMentions(env, chunks), k)
  {
    forall m | m in AllMentions(env, chunks)
      ensures IsMinedKey(env, chunks, m.entity) && exists c :: c in chunks && OwnsMention(c, m)
    {
      var c :| c in chunks && m in MentionsOf(env, c);
      assert OwnsMention(c, m);
    }
    forall k | IsMinedKey(env, chunks, k) ensures Mentioned(AllMentions(env, chunks), k) {
      var c, r :| c in chunks && r in env.entities(c.text) && k == EntityKey(c.tenant, r.canonical, r.kind);
      var x :| x in r.surfaces;
      var m := Mention(k, c.id, x);
      assert m in MentionsOf(env, c) && m in AllMentions(env, chunks);
    }
  }

  /** Mining chunks that are in the table keeps the invariant. */
  lemma MineKeeps(s: Store, env: Env, chunks: seq<Chunk>)
    requires Inv(s) && EnvOk(env) && forall c :: c in chunks ==> c in s.chunks
    ensures Inv(Mine(s, env, chunks))
  {
    hide MirrorOk, KeysOk, DocumentsOk;
    var t := Mine(s, env, chunks);
    MinedMentions(env, chunks);
    MineEntitiesKeys(env, s.entities, chunks);
    AllClaimsOwned(env, chunks);
    hide IsMinedKey, AllMentions, AllClaims, MineEntities;
    assert ClaimsOk(t) by {
      forall k | k in t.claims ensures exists c :: c in t.chunks && OwnsClaim(c, k) {
        if k in AllClaims(env, chunks) {
          var c :| c in chunks && OwnsClaim(c, k);
          assert c in t.chunks;
        }
      }
    }
    assert MentionsOk(t) by {
      forall m | m in t.mentions ensures m.entity in t.entities && exists c :: c in t.chunks && OwnsMention(c, m) {
        if m in AllMentions(env, chunks) {
          var c :| c in chunks && OwnsMention(c, m);
          assert c in t.chunks;
        }
      }
    }
    assert EntitiesOk(t) by {
      forall k | k in t.entities ensures Mentioned(t.mentions, k) {
        if k in s.entities {
          var m :| m in s.mentions && m.entity == k;
          assert m in t.mentions;
        } else {
          var m :| m in AllMentions(env, chunks) && m.entity == k;
          assert m in t.mentions;
        }
      }
    }
    assert KeysOk(t) && DocumentsOk(t) && MirrorOk(t) by { MineTouchesLittle(s, env, chunks); }
  }

  lemma MineTouchesLittle(s: Store, env: Env, chunks: seq<Chunk>)
    requires KeysOk(s) && DocumentsOk(s) && MirrorOk(s)
    ensures var t := Mine(s, env, chunks); KeysOk(t) && DocumentsOk(t) && MirrorOk(t)
  {}
}
