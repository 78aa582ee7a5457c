/** Every operation of the knowledge store keeps its invariant, over whole runs. */
module KnowledgeSteps {
  import opened Basics
  import opened Redaction
  import opened Rows
  import opened KnowledgeModel
  import opened KnowledgeInvariant

  lemma AddSourceKeeps(s: Store, tenant: Name, locator: string, title: Option<string>, owner: Option<string>)
    requires Inv(s)
    ensures Inv(AddSource(s, tenant, locator, title, owner))
  {
    hide MirrorOk, ClaimsOk, MentionsOk, EntitiesOk, Distinct;
    var t := AddSource(s, tenant, locator, title, owner);
    assert MirrorOk(t) && ClaimsOk(t) && MentionsOk(t) && EntitiesOk(t) by { SameRows(s, t); }
  }

  lemma SameRows(s: Store, t: Store)
    requires MirrorOk(s) && ClaimsOk(s) && MentionsOk(s) && EntitiesOk(s)
    requires t.chunks == s.chunks && t.fts == s.fts && t.claims == s.claims && t.entities == s.entities
         && t.mentions == s.mentions
    ensures MirrorOk(t) && ClaimsOk(t) && MentionsOk(t) && EntitiesOk(t)
  {}

  // ---------- ingestion ----------

  /** A new document with its chunks and mirror rows, before mining. */
  predicate IsInsertion(s: Store, t: Store, tenant: Name, source: Id, d: Document, chunks: seq<Chunk>) {
    && t == s.(documents := s.documents[s.nextId := d], chunks := s.chunks + chunks,
               fts := s.fts + Each(chunks, MirrorRow()), nextId := s.nextId + 1 + |chunks|)
    && d.tenant == tenant && d.sourceId == source
    && HasSource(s, tenant, source)
    && (forall i :: 0 <= i < |chunks| ==>
          chunks[i].id == s.nextId + 1 + i && chunks[i].tenant == tenant && chunks[i].documentId == s.nextId)
    && (forall e :: e in s.documents ==> s.documents[e].sourceId != source)
  }

  lemma InsertionKeepsRows(s: Store, t: Store, tenant: Name, source: Id, d: Document, chunks: seq<Chunk>)
    requires KeysOk(s) && DocumentsOk(s) && ChunksOk(s) && IsInsertion(s, t, tenant, source, d, chunks)
    ensures KeysOk(t) && DocumentsOk(t) && ChunksOk(t)
  {
    AscendingDistinct(chunks);
    ConcatDistinct(s.chunks, chunks);
    hide Distinct;
    assert s.nextId !in s.documents;
    forall c | c in t.chunks ensures c.id < t.nextId && HasDocument(t, c.tenant, c.documentId) {
      if c in s.chunks {
        assert HasDocument(s, c.tenant, c.documentId);
      }
    }
  }

  lemma InsertionKeepsLinks(s: Store, t: Store, tenant: Name, source: Id, d: Document, chunks: seq<Chunk>)
    requires ClaimsOk(s) && MentionsOk(s) && EntitiesOk(s) && MirrorOk(s)
         && IsInsertion(s, t, tenant, source, d, chunks)
    ensures ClaimsOk(t) && MentionsOk(t) && EntitiesOk(t) && MirrorOk(t)
  {
    assert MirrorOk(t) by {
      EachConcat(s.chunks, chunks, MirrorRow());
      BagConcat(s.fts, Each(s.chunks, MirrorRow()), Each(chunks, MirrorRow()), Each(chunks, MirrorRow()));
    }
    hide MirrorOk;
    forall k | k in t.claims ensures exists c :: c in t.chunks && OwnsClaim(c, k) {
      var c :| c in s.chunks && OwnsClaim(c, k);
      assert c in t.chunks;
    }
    forall m | m in t.mentions ensures exists c :: c in t.chunks && OwnsMention(c, m) {
      var c :| c in s.chunks && OwnsMention(c, m);
      assert c in t.chunks;
    }
  }

  lemma InsertionKeeps(s: Store, t: Store, tenant: Name, source: Id, d: Document, chunks: seq<Chunk>)
    requires Inv(s) && IsInsertion(s, t, tenant, source, d, chunks)
    ensures Inv(t)
  {
    InsertionKeepsRows(s, t, tenant, source, d, chunks);
    InsertionKeepsLinks(s, t, tenant, source, d, chunks);
  }

  function Superseded(s: Store, tenant: Name, source: Id): set<Id> {
    set d | d in s.documents && s.documents[d].tenant == tenant && s.documents[d].sourceId == source
  }

  /** In an invariant store the tenant's documents of a source are all its documents. */
  lemma SupersededIsAll(s: Store, tenant: Name, source: Id)
    requires DocumentsOk(s) && HasSource(s, tenant, source)
    ensures Superseded(s, tenant, source) == DocumentsOf(s, source)
  {}

  lemma IngestInserts(s: Store, env: Env, tenant: Name, source: Id, content: string, flagged: bool)
    returns (cleared: Store, inserted: Store, chunks: seq<Chunk>)
    requires Inv(s) && HasSource(s, tenant, source) && !AlreadyIngested(s, source, tenant, env.sha(content))
    ensures cleared == DeleteDocuments(s, Superseded(s, tenant, source))
    ensures IsInsertion(cleared, inserted, tenant, source, NewDocument(env, tenant, source, content, flagged), chunks)
    ensures chunks == NewChunks(tenant, s.nextId, s.nextId + 1, env.extract(content).pieces)
    ensures Ingest(s, env, tenant, source, content, flagged).0
         == if env.poisoned(env.extract(content).text) then inserted else Mine(inserted, env, chunks)
    ensures forall c :: c in chunks ==> c in inserted.chunks
  {
    hide Keep, ChunkIds, Each, Distinct, MirrorOk, ClaimsOk, MentionsOk, EntitiesOk, ChunksOk, KeysOk;
    cleared := DeleteDocuments(s, Superseded(s, tenant, source));
    chunks := NewChunks(tenant, s.nextId, s.nextId + 1, env.extract(content).pieces);
    inserted := cleared.(
      documents := cleared.documents[s.nextId := NewDocument(env, tenant, source, content, flagged)],
      chunks := cleared.chunks + chunks,
      fts := cleared.fts + Each(chunks, MirrorRow()),
      nextId := s.nextId + 1 + |chunks|);
    SupersededIsAll(s, tenant, source);
  }

  lemma IngestKeeps(s: Store, env: Env, tenant: Name, source: Id, content: string, flagged: bool)
    requires Inv(s) && EnvOk(env)
    ensures Inv(Ingest(s, env, tenant, source, content, flagged).0)
  {
    if HasSource(s, tenant, source) && !AlreadyIngested(s, source, tenant, env.sha(content)) {
      hide Inv, Ingest, Mine, DeleteDocuments, IsInsertion, NewChunks;
      var cleared, inserted, chunks := IngestInserts(s, env, tenant, source, content, flagged);
      DeleteKeeps(s, Superseded(s, tenant, source));
      InsertionKeeps(cleared, inserted, tenant, source, NewDocument(env, tenant, source, content, flagged), chunks);
      MineKeeps(inserted, env, chunks);
    }
  }

  // ---------- removal ----------

  lemma DeleteSourceKeeps(s: Store, tenant: Name, id: Id)
    requires Inv(s)
    ensures Inv(DeleteSource(s, tenant, id).0)
  {
    hide Inv, DeleteDocuments;
    if HasSource(s, tenant, id) {
      DeleteKeeps(s, DocumentsOf(s, id));
      NoneOfSource(s, id);
      DropSourceKeeps(DeleteDocuments(s, DocumentsOf(s, id)), id);
    }
  }

  lemma NoneOfSource(s: Store, id: Id)
    ensures var t := DeleteDocuments(s, DocumentsOf(s, id));
            forall d :: d in t.documents ==> t.documents[d].sourceId != id
  {
    hide Keep, ChunkIds;
  }

  lemma DropSourceKeeps(s: Store, id: Id)
    requires Inv(s) && forall d :: d in s.documents ==> s.documents[d].sourceId != id
    ensures Inv(s.(sources := s.sources - {id}))
  {
    hide MirrorOk, ClaimsOk, MentionsOk, EntitiesOk, Distinct;
    SameRows(s, s.(sources := s.sources - {id}));
  }

  lemma EraseKeepsRows(s: Store, tenant: Name)
    requires KeysOk(s) && DocumentsOk(s) && ChunksOk(s)
    ensures var t := EraseTenant(s, tenant); KeysOk(t) && DocumentsOk(t) && ChunksOk(t)
  {
    var t := EraseTenant(s, tenant);
    KeepIn(s.chunks, ChunkOfOthers(tenant));
    KeepDistinct(s.chunks, ChunkOfOthers(tenant));
    hide Distinct, Keep;
    forall c | c in t.chunks ensures c.id < t.nextId && HasDocument(t, c.tenant, c.documentId) {
      assert HasDocument(s, c.tenant, c.documentId);
    }
  }

  lemma EraseKeepsLinks(s: Store, tenant: Name)
    requires ClaimsOk(s) && MentionsOk(s) && EntitiesOk(s)
    ensures var t := EraseTenant(s, tenant); ClaimsOk(t) && MentionsOk(t) && EntitiesOk(t)
  {
    var t := EraseTenant(s, tenant);
    KeepIn(s.chunks, ChunkOfOthers(tenant));
    KeepIn(s.claims, ClaimOfOthers(tenant));
    hide Keep;
    forall k | k in t.claims ensures exists c :: c in t.chunks && OwnsClaim(c, k) {
      var c :| c in s.chunks && OwnsClaim(c, k);
      assert c in t.chunks;
    }
    forall m | m in t.mentions ensures m.entity in t.entities && exists c :: c in t.chunks && OwnsMention(c, m) {
      var c :| c in s.chunks && OwnsMention(c, m);
      assert c in t.chunks;
    }
    forall k | k in t.entities ensures Mentioned(t.mentions, k) {
      var m :| m in s.mentions && m.entity == k;
      assert m in t.mentions;
    }
  }

  lemma EraseKeepsMirror(s: Store, tenant: Name)
    requires MirrorOk(s)
    ensures MirrorOk(EraseTenant(s, tenant))
  {
    MirrorKept(s.chunks, s.fts, ChunkOfOthers(tenant), FtsOfOthers(tenant));
  }

  lemma EraseKeeps(s: Store, tenant: Name)
    requires Inv(s)
    ensures Inv(EraseTenant(s, tenant))
  {
    hide EraseTenant, Distinct;
    EraseKeepsRows(s, tenant);
    EraseKeepsLinks(s, tenant);
    EraseKeepsMirror(s, tenant);
  }

  // ---------- quarantine ----------

  lemma MarkKeeps(s: Store, id: Id, hold: bool)
    requires Inv(s) && id in s.documents
    ensures Inv(s.(documents := s.documents[id := s.documents[id].(quarantine := hold)]))
  {
    var t := s.(documents := s.documents[id := s.documents[id].(quarantine := hold)]);
    hide MirrorOk, ClaimsOk, MentionsOk, EntitiesOk, Distinct;
    SameRows(s, t);
  }

  lemma DropClaimsKeeps(s: Store, id: Id)
    requires Inv(s)
    ensures Inv(s.(claims := Keep(s.claims, ClaimNotOfDocument(id))))
  {
    var t := s.(claims := Keep(s.claims, ClaimNotOfDocument(id)));
    KeepIn(s.claims, ClaimNotOfDocument(id));
    hide MirrorOk, Distinct, Keep;
    forall k | k in t.claims ensures exists c :: c in t.chunks && OwnsClaim(c, k) {
      var c :| c in s.chunks && OwnsClaim(c, k);
    }
    assert MirrorOk(t) by { MirrorSame(s, t); }
  }

  lemma MirrorSame(s: Store, t: Store)
    requires MirrorOk(s) && t.chunks == s.chunks && t.fts == s.fts
    ensures MirrorOk(t)
  {}

  /** The chunks' mentions go, and the tenant's entities nothing mentions any more. */
  function ForgetMentions(s: Store, tenant: Name, ids: set<Id>): Store {
    var mentions := set m | m in s.mentions && m.chunkId !in ids;
    s.(mentions := mentions,
       entities := map k | k in s.entities && (k.tenant != tenant || Mentioned(mentions, k)) :: s.entities[k])
  }

  lemma ForgetMentionsKeeps(s: Store, tenant: Name, ids: set<Id>)
    requires Inv(s) && forall c :: c in s.chunks && c.id in ids ==> c.tenant == tenant
    ensures Inv(ForgetMentions(s, tenant, ids))
  {
    var t := ForgetMentions(s, tenant, ids);
    ForgetKeepsEntities(s, tenant, ids);
    ForgetKeepsMentions(s, tenant, ids);
    hide Distinct, MirrorOk, ClaimsOk, MentionsOk, EntitiesOk;
    MirrorSame(s, t);
    ClaimsSame(s, t);
  }

  lemma ForgetKeepsEntities(s: Store, tenant: Name, ids: set<Id>)
    requires MentionsOk(s) && EntitiesOk(s) && forall c :: c in s.chunks && c.id in ids ==> c.tenant == tenant
    ensures EntitiesOk(ForgetMentions(s, tenant, ids))
  {
    var t := ForgetMentions(s, tenant, ids);
    forall k | k in t.entities ensures Mentioned(t.mentions, k) {
      if k.tenant != tenant {
        var m :| m in s.mentions && m.entity == k;
        var c :| c in s.chunks && OwnsMention(c, m);
        assert m in t.mentions;
      }
    }
  }

  lemma ForgetKeepsMentions(s: Store, tenant: Name, ids: set<Id>)
    requires MentionsOk(s)
    ensures MentionsOk(ForgetMentions(s, tenant, ids))
  {
    var t := ForgetMentions(s, tenant, ids);
    forall m | m in t.mentions ensures m.entity in t.entities && exists c :: c in t.chunks && OwnsMention(c, m) {
      assert m in s.mentions && Mentioned(t.mentions, m.entity);
      var c :| c in s.chunks && OwnsMention(c, m);
      assert c in t.chunks;
    }
  }

  lemma ClaimsSame(s: Store, t: Store)
    requires ClaimsOk(s) && t.chunks == s.chunks && t.claims == s.claims
    ensures ClaimsOk(t)
  {}

  lemma OwnChunks(s: Store, id: Id)
    requires Inv(s) && id in s.documents
    ensures forall c :: c in Keep(s.chunks, OfDocuments({id})) <==> c in s.chunks && c.documentId == id
    ensures forall c :: c in s.chunks ==> (c.id in ChunkIds(Keep(s.chunks, OfDocuments({id}))) <==> c.documentId == id)
    ensures forall c :: c in s.chunks && c.documentId == id ==> c.tenant == s.documents[id].tenant
  {
    KeepIn(s.chunks, OfDocuments({id}));
    IdsOfKept(s.chunks, {id});
  }

  lemma QuarantineKeeps(s: Store, env: Env, tenant: Name, id: Id, hold: bool)
    requires Inv(s) && EnvOk(env)
    ensures Inv(SetQuarantine(s, env, tenant, id, hold).0)
  {
    if HasDocument(s, tenant, id) {
      var was := s.documents[id].quarantine;
      var marked := s.(documents := s.documents[id := s.documents[id].(quarantine := hold)]);
      MarkKeeps(s, id, hold);
      var own := Keep(s.chunks, OfDocuments({id}));
      OwnChunks(s, id);
      hide Inv, Keep, ChunkIds, Mine;
      var dropped := marked.(claims := Keep(s.claims, ClaimNotOfDocument(id)));
      DropClaimsKeeps(marked, id);
      if !hold && was {
        MineKeeps(dropped, env, own);
      } else if hold && !was {
        ForgetMentionsKeeps(dropped, tenant, ChunkIds(own));
      }
    }
  }

  // ---------- redaction ----------

  function MissChunks(env: Env, tenant: Name, term: string): Chunk -> bool {
    (c: Chunk) => !ChunkHit(env, tenant, term, c)
  }

  function ScrubMirror(env: Env, tenant: Name, term: string, replacement: string): Chunk -> FtsRow
    requires term != []
  {
    (c: Chunk) => MirrorRow()(ScrubChunk(env, tenant, term, replacement)(c))
  }

  lemma HitIds(chunks: seq<Chunk>, env: Env, tenant: Name, term: string)
    requires Distinct(chunks)
    ensures forall c :: c in chunks ==>
      (c.id in ChunkIds(Keep(chunks, HitChunks(env, tenant, term))) <==> ChunkHit(env, tenant, term, c))
  {
    KeepIn(chunks, HitChunks(env, tenant, term));
    DistinctUnique(chunks);
    hide ChunkHit;
  }

  lemma RedactedMirror(s: Store, env: Env, tenant: Name, term: string, replacement: string)
    requires |term| >= 2
    ensures var t := RedactTerm(s, env, tenant, term, replacement).0;
            var hit := Keep(s.chunks, HitChunks(env, tenant, term));
            && t.chunks == Each(s.chunks, ScrubChunk(env, tenant, term, replacement))
            && t.fts == Keep(s.fts, FtsOutside(ChunkIds(hit))) + Each(hit, ScrubMirror(env, tenant, term, replacement))
  {
    hide ChunkHit, Scrub, HitDocuments, EntityHit, SourceHit, Keep;
    EachTwice(Keep(s.chunks, HitChunks(env, tenant, term)), env, tenant, term, replacement);
  }

  lemma EachTwice(rows: seq<Chunk>, env: Env, tenant: Name, term: string, replacement: string)
    requires term != []
    ensures Each(Each(rows, ScrubChunk(env, tenant, term, replacement)), MirrorRow())
         == Each(rows, ScrubMirror(env, tenant, term, replacement))
  {
    hide Scrub, ChunkHit;
  }

  /** Where the term is not found, the rewritten row is the old one. */
  lemma MissedRows(rows: seq<Chunk>, env: Env, tenant: Name, term: string, replacement: string)
    requires term != [] && forall c :: c in rows ==> !ChunkHit(env, tenant, term, c)
    ensures Each(rows, MirrorRow()) == Each(rows, ScrubMirror(env, tenant, term, replacement))
  {
    hide Scrub, ChunkHit;
    forall i | 0 <= i < |rows|
      ensures Each(rows, MirrorRow())[i] == Each(rows, ScrubMirror(env, tenant, term, replacement))[i]
    {
      assert rows[i] in rows;
      assert ScrubChunk(env, tenant, term, replacement)(rows[i]) == rows[i];
    }
  }

  lemma RedactKeepsMirror(s: Store, env: Env, tenant: Name, term: string, replacement: string)
    requires |term| >= 2 && MirrorOk(s) && Distinct(s.chunks)
    ensures MirrorOk(RedactTerm(s, env, tenant, term, replacement).0)
  {
    hide ChunkHit, RedactTerm, Keep, Distinct, ChunkIds;
    var g := ScrubMirror(env, tenant, term, replacement);
    var hits, misses := HitChunks(env, tenant, term), MissChunks(env, tenant, term);
    HitIds(s.chunks, env, tenant, term);
    MirrorKept(s.chunks, s.fts, misses, FtsOutside(ChunkIds(Keep(s.chunks, hits))));
    EachSplit(s.chunks, g, misses, hits);
    KeepIn(s.chunks, misses);
    MissedRows(Keep(s.chunks, misses), env, tenant, term, replacement);
    RedactedMirror(s, env, tenant, term, replacement);
    EachTwice(s.chunks, env, tenant, term, replacement);
    hide Each, ScrubMirror, ScrubChunk, MirrorRow;
  }

  /** What redaction leaves of the rows' links: same sources and documents, each under its tenant and source. */
  lemma RedactedRows(s: Store, env: Env, tenant: Name, term: string, replacement: string)
    requires |term| >= 2
    ensures var t := RedactTerm(s, env, tenant, term, replacement).0;
            && t.nextId == s.nextId && t.chunks == Each(s.chunks, ScrubChunk(env, tenant, term, replacement))
            && t.sources.Keys == s.sources.Keys && t.documents.Keys == s.documents.Keys
            && (forall x :: x in s.sources ==> t.sources[x].tenant == s.sources[x].tenant)
            && (forall d :: d in s.documents ==>
                  t.documents[d].tenant == s.documents[d].tenant && t.documents[d].sourceId == s.documents[d].sourceId)
  {
    hide ChunkHit, Scrub, HitDocuments, ScrubOption, EntityHit, SourceHit, ClaimHit, Keep, Each, ChunkIds;
  }

  lemma RedactKeepsRows(s: Store, env: Env, tenant: Name, term: string, replacement: string)
    requires |term| >= 2 && KeysOk(s) && DocumentsOk(s) && ChunksOk(s)
    ensures var t := RedactTerm(s, env, tenant, term, replacement).0; KeysOk(t) && DocumentsOk(t) && ChunksOk(t)
  {
    hide ChunkHit, Scrub, RedactTerm;
    var t := RedactTerm(s, env, tenant, term, replacement).0;
    RedactedRows(s, env, tenant, term, replacement);
    EachDistinct(s.chunks, ScrubChunk(env, tenant, term, replacement));
    hide Distinct;
    forall c | c in t.chunks ensures c.id < t.nextId && HasDocument(t, c.tenant, c.documentId) {
      var i :| 0 <= i < |s.chunks| && t.chunks[i] == c;
      assert s.chunks[i] in s.chunks;
    }
  }

  lemma RedactKeepsLinks(s: Store, env: Env, tenant: Name, term: string, replacement: string)
    requires |term| >= 2 && ClaimsOk(s) && MentionsOk(s) && EntitiesOk(s)
    ensures var t := RedactTerm(s, env, tenant, term, replacement).0; ClaimsOk(t) && MentionsOk(t) && EntitiesOk(t)
  {
    hide ChunkHit, Scrub, HitDocuments, ScrubOption, EntityHit, SourceHit, ClaimHit, Keep;
    var t := RedactTerm(s, env, tenant, term, replacement).0;
    var f := ScrubChunk(env, tenant, term, replacement);
    forall c | c in s.chunks ensures f(c) in t.chunks {
      var i :| 0 <= i < |s.chunks| && s.chunks[i] == c;
      assert t.chunks[i] == f(c);
    }
    assert ClaimsOk(t) by {
      forall k | k in t.claims ensures exists c :: c in t.chunks && OwnsClaim(c, k) {
        var i :| 0 <= i < |s.claims| && t.claims[i] == k;
        assert s.claims[i] in s.claims;
        var c :| c in s.chunks && OwnsClaim(c, s.claims[i]);
        assert OwnsClaim(f(c), k);
      }
    }
    assert MentionsOk(t) by {
      forall m | m in t.mentions ensures m.entity in t.entities && exists c :: c in t.chunks && OwnsMention(c, m) {
        var c :| c in s.chunks && OwnsMention(c, m);
        assert OwnsMention(f(c), m);
      }
    }
    assert EntitiesOk(t) by {
      forall k | k in t.entities ensures Mentioned(t.mentions, k) {
        var m :| m in s.mentions && m.entity == k;
        assert m in t.mentions;
      }
    }
  }

  lemma RedactKeeps(s: Store, env: Env, tenant: Name, term: string, replacement: string)
    requires Inv(s)
    ensures Inv(RedactTerm(s, env, tenant, term, replacement).0)
  {
    if |term| >= 2 {
      hide RedactTerm;
      RedactKeepsRows(s, env, tenant, term, replacement);
      RedactKeepsMirror(s, env, tenant, term, replacement);
      RedactKeepsLinks(s, env, tenant, term, replacement);
    }
  }

  // ---------- runs ----------

  lemma StepKeeps(env: Env, s: Store, op: Op)
    requires Inv(s) && EnvOk(env)
    ensures Inv(Step(env, s, op))
  {
    hide Inv;
    match op
    case Add(tenant, locator, title, owner) => AddSourceKeeps(s, tenant, locator, title, owner);
    case IngestContent(tenant, source, content, flagged) => IngestKeeps(s, env, tenant, source, content, flagged);
    case Remove(tenant, source) => DeleteSourceKeeps(s, tenant, source);
    case Quarantine(tenant, document, hold) => QuarantineKeeps(s, env, tenant, document, hold);
    case Redact(tenant, term, replacement) => RedactKeeps(s, env, tenant, term, replacement);
    case Erase(tenant) => EraseKeeps(s, tenant);
  }

  lemma {:induction false} RunKeeps(env: Env, s: Store, ops: seq<Op>)
    requires Inv(s) && EnvOk(env)
    ensures Inv(Run(env, s, ops))
    decreases |ops|
  {
    hide Inv, Step;
    if ops != [] {
      StepKeeps(env, s, ops[0]);
      RunKeeps(env, Step(env, s, ops[0]), ops[1..]);
    }
  }
}
