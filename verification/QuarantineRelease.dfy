/** Holding a document and releasing it again gives back what a clean ingestion of its chunks produces. */
module QuarantineRelease {
  import opened Basics
  import opened Rows
  import opened KnowledgeModel
  import opened KnowledgeInvariant
  import opened KnowledgeSteps

  function ClaimOfDocument(d: Id): Claim -> bool { (k: Claim) => k.documentId == d }

  function ChunksOf(s: Store, d: Id): seq<Chunk> {
    Keep(s.chunks, OfDocuments({d}))
  }

  function ClaimsOfDocument(s: Store, d: Id): seq<Claim> {
    Keep(s.claims, ClaimOfDocument(d))
  }

  function MentionsOfDocument(s: Store, d: Id): set<Mention> {
    set m | m in s.mentions && m.chunkId in ChunkIds(ChunksOf(s, d))
  }

  /** The document's claims and mentions are what recognition finds in its chunks. */
  predicate AsIngested(s: Store, env: Env, d: Id) {
    && ClaimsOfDocument(s, d) == AllClaims(env, ChunksOf(s, d))
    && MentionsOfDocument(s, d) == AllMentions(env, ChunksOf(s, d))
  }

  // ---------- mining the chunks of one document ----------

  lemma MinedClaimsOf(env: Env, chunks: seq<Chunk>, d: Id)
    requires forall c :: c in chunks ==> c.documentId == d
    ensures forall k :: k in AllClaims(env, chunks) ==> k.documentId == d
  {
    AllClaimsOwned(env, chunks);
  }

  /** Appending mined claims to a table without claims of the document. */
  lemma ClaimsAfterMining(claims: seq<Claim>, env: Env, chunks: seq<Chunk>, d: Id)
    requires forall c :: c in chunks ==> c.documentId == d
    requires forall k :: k in claims ==> k.documentId != d
    ensures Keep(claims + AllClaims(env, chunks), ClaimOfDocument(d)) == AllClaims(env, chunks)
    ensures forall e: Id :: e != d ==>
      Keep(claims + AllClaims(env, chunks), ClaimOfDocument(e)) == Keep(claims, ClaimOfDocument(e))
  {
    MinedClaimsOf(env, chunks, d);
    var mined := AllClaims(env, chunks);
    KeepConcat(claims, mined, ClaimOfDocument(d));
    KeepNone(claims, ClaimOfDocument(d));
    KeepAll(mined, ClaimOfDocument(d));
    forall e: Id | e != d ensures Keep(claims + mined, ClaimOfDocument(e)) == Keep(claims, ClaimOfDocument(e)) {
      KeepConcat(claims, mined, ClaimOfDocument(e));
      KeepNone(mined, ClaimOfDocument(e));
    }
  }

  lemma MinedMentionIds(env: Env, chunks: seq<Chunk>)
    ensures forall m :: m in AllMentions(env, chunks) ==> m.chunkId in ChunkIds(chunks)
  {
    forall m | m in AllMentions(env, chunks) ensures m.chunkId in ChunkIds(chunks) {
      var c :| c in chunks && m in MentionsOf(env, c);
    }
  }

  // ---------- ingestion ----------

  /** A clean ingestion leaves the new document with exactly what recognition finds in its chunks. */
  lemma CleanIngestIsMined(s: Store, env: Env, tenant: Name, source: Id, content: string, flagged: bool)
    requires Inv(s) && HasSource(s, tenant, source) && !AlreadyIngested(s, source, tenant, env.sha(content))
    requires !env.poisoned(env.extract(content).text)
    ensures var t := Ingest(s, env, tenant, source, content, flagged).0;
            && ChunksOf(t, s.nextId) == NewChunks(tenant, s.nextId, s.nextId + 1, env.extract(content).pieces)
            && AsIngested(t, env, s.nextId)
  {
    hide Inv, Ingest, DeleteDocuments, Mine, IsInsertion, NewDocument, NewChunks, ChunksOf, AsIngested;
    var cleared, inserted, chunks := IngestInserts(s, env, tenant, source, content, flagged);
    NextIdUntouched(s, Superseded(s, tenant, source));
    DeleteKeeps(s, Superseded(s, tenant, source));
    MinedInsertion(cleared, inserted, env, tenant, source, NewDocument(env, tenant, source, content, flagged), chunks);
  }

  /** Mining the chunks of a fresh document gives it what recognition finds in them, and nothing else. */
  lemma MinedInsertion(s: Store, t: Store, env: Env, tenant: Name, source: Id, d: Document, chunks: seq<Chunk>)
    requires Inv(s) && IsInsertion(s, t, tenant, source, d, chunks)
    ensures var mined := Mine(t, env, chunks); ChunksOf(mined, s.nextId) == chunks && AsIngested(mined, env, s.nextId)
  {
    hide Inv, Keep, AllClaims, AllMentions, ChunkIds, Each, MineEntities;
    NewIdIsUnused(s);
    assert forall c :: c in chunks ==> c.documentId == s.nextId;
    KeepConcat(s.chunks, chunks, OfDocuments({s.nextId}));
    KeepNone(s.chunks, OfDocuments({s.nextId}));
    KeepAll(chunks, OfDocuments({s.nextId}));
    assert [] + chunks == chunks;
    ClaimsAfterMining(t.claims, env, chunks, s.nextId);
    MinedMentionIds(env, chunks);
    IdsAreNew(chunks, s.nextId);
  }

  lemma IdsAreNew(chunks: seq<Chunk>, d: Id)
    requires forall i :: 0 <= i < |chunks| ==> chunks[i].id == d + 1 + i
    ensures forall id :: id in ChunkIds(chunks) ==> id > d
  {}

  lemma NextIdUntouched(s: Store, ds: set<Id>)
    ensures DeleteDocuments(s, ds).nextId == s.nextId
  {}

  lemma NewIdIsUnused(s: Store)
    requires Inv(s)
    ensures forall c :: c in s.chunks ==> c.documentId != s.nextId
    ensures forall k :: k in s.claims ==> k.documentId != s.nextId
    ensures forall m :: m in s.mentions ==> m.chunkId < s.nextId
  {
    hide Distinct, MirrorOk;
    forall c | c in s.chunks ensures c.documentId != s.nextId {
      assert HasDocument(s, c.tenant, c.documentId);
    }
    forall k | k in s.claims ensures k.documentId != s.nextId {
      var c :| c in s.chunks && OwnsClaim(c, k);
    }
    forall m | m in s.mentions ensures m.chunkId < s.nextId {
      var c :| c in s.chunks && OwnsMention(c, m);
    }
  }

  // ---------- hold and release ----------

  /** Holding removes the document's claims and mentions and no other document's. */
  lemma HoldRemoves(s: Store, env: Env, tenant: Name, d: Id)
    requires HasDocument(s, tenant, d) && !s.documents[d].quarantine
    ensures var t := SetQuarantine(s, env, tenant, d, true).0;
            && t.chunks == s.chunks && t.documents[d].quarantine
            && ClaimsOfDocument(t, d) == [] && MentionsOfDocument(t, d) == {}
            && t.mentions == s.mentions - MentionsOfDocument(s, d)
            && forall e: Id :: e != d ==> ClaimsOfDocument(t, e) == ClaimsOfDocument(s, e)
  {
    var t := SetQuarantine(s, env, tenant, d, true).0;
    KeepIn(s.claims, ClaimNotOfDocument(d));
    KeepNone(t.claims, ClaimOfDocument(d));
    forall e: Id | e != d ensures ClaimsOfDocument(t, e) == ClaimsOfDocument(s, e) {
      KeepTwice(s.claims, ClaimNotOfDocument(d), ClaimOfDocument(e), ClaimOfDocument(e));
    }
    hide Keep, ChunkIds;
  }

  /** Releasing gives the document exactly what a clean ingestion of its chunks produces, whatever was there before. */
  lemma ReleaseMines(s: Store, env: Env, tenant: Name, d: Id)
    requires Inv(s) && HasDocument(s, tenant, d) && s.documents[d].quarantine && MentionsOfDocument(s, d) == {}
    ensures var t := SetQuarantine(s, env, tenant, d, false).0;
            && t.chunks == s.chunks && AsIngested(t, env, d)
            && t.mentions == s.mentions + AllMentions(env, ChunksOf(s, d))
            && forall e: Id :: e != d ==> ClaimsOfDocument(t, e) == ClaimsOfDocument(s, e)
  {
    var own := ChunksOf(s, d);
    OwnChunks(s, d);
    var rest := Keep(s.claims, ClaimNotOfDocument(d));
    KeepIn(s.claims, ClaimNotOfDocument(d));
    ClaimsAfterMining(rest, env, own, d);
    MinedMentionIds(env, own);
    forall e: Id | e != d ensures Keep(rest, ClaimOfDocument(e)) == Keep(s.claims, ClaimOfDocument(e)) {
      KeepTwice(s.claims, ClaimNotOfDocument(d), ClaimOfDocument(e), ClaimOfDocument(e));
    }
    hide Inv, Keep, AllClaims, AllMentions, ChunkIds, MineEntities;
    var t := SetQuarantine(s, env, tenant, d, false).0;
    assert t.claims == rest + AllClaims(env, own) && t.mentions == s.mentions + AllMentions(env, own)
      && t.chunks == s.chunks;
    MentionsAfterMining(s, env, t, d);
  }

  lemma MentionsAfterMining(s: Store, env: Env, t: Store, d: Id)
    requires t.chunks == s.chunks && t.mentions == s.mentions + AllMentions(env, ChunksOf(s, d))
    requires MentionsOfDocument(s, d) == {}
    ensures MentionsOfDocument(t, d) == AllMentions(env, ChunksOf(s, d))
  {
    MinedMentionIds(env, ChunksOf(s, d));
    hide Keep, AllMentions, ChunkIds;
    forall m | m in MentionsOfDocument(t, d) ensures m in AllMentions(env, ChunksOf(s, d)) {
      assert m !in MentionsOfDocument(s, d);
    }
  }

  lemma EntitiesAreTheMentioned(s: Store)
    requires Inv(s)
    ensures s.entities.Keys == set m | m in s.mentions :: m.entity
  {
    hide Distinct, MirrorOk, ClaimsOk, KeysOk, ChunksOk, DocumentsOk;
    forall k | k in s.entities ensures k in (set m | m in s.mentions :: m.entity) {
      var m :| m in s.mentions && m.entity == k;
    }
  }

  /** Hold then release restores every document's claims, all mentions, and the set of entities. */
  lemma HoldThenReleaseRestores(s: Store, env: Env, tenant: Name, d: Id)
    requires Inv(s) && EnvOk(env) && HasDocument(s, tenant, d) && !s.documents[d].quarantine && AsIngested(s, env, d)
    ensures var held := SetQuarantine(s, env, tenant, d, true).0;
            var t := SetQuarantine(held, env, tenant, d, false).0;
            && (forall e: Id :: ClaimsOfDocument(t, e) == ClaimsOfDocument(s, e))
            && t.mentions == s.mentions
            && t.entities.Keys == s.entities.Keys
            && t.chunks == s.chunks && t.fts == s.fts && t.documents == s.documents
  {
    var held := SetQuarantine(s, env, tenant, d, true).0;
    var t := SetQuarantine(held, env, tenant, d, false).0;
    Rehold(s, env, tenant, d);
    QuarantineKeeps(s, env, tenant, d, true);
    HoldRemoves(s, env, tenant, d);
    ReleaseMines(held, env, tenant, d);
    QuarantineKeeps(held, env, tenant, d, false);
    hide SetQuarantine, Inv, Keep, AllClaims, AllMentions, ChunkIds;
    EntitiesAreTheMentioned(s);
    EntitiesAreTheMentioned(t);
    assert t.mentions == s.mentions by {
      assert MentionsOfDocument(s, d) <= s.mentions;
    }
  }

  lemma Rehold(s: Store, env: Env, tenant: Name, d: Id)
    requires HasDocument(s, tenant, d) && !s.documents[d].quarantine
    ensures var held := SetQuarantine(s, env, tenant, d, true).0;
            var t := SetQuarantine(held, env, tenant, d, false).0;
            HasDocument(held, tenant, d) && t.fts == s.fts && t.documents == s.documents
  {
    hide Keep, ChunkIds, AllClaims, AllMentions, MineEntities;
  }
}
