/** What the knowledge store guarantees: the full-text mirror, quarantine, release, and redaction. */
module KnowledgeTheorems {
  import opened Basics
  import opened Redaction
  import opened Rows
  import opened KnowledgeModel
  import opened KnowledgeInvariant
  import opened KnowledgeSteps

  // ---------- the full-text mirror ----------

  /**
    After any run every chunk has exactly one full-text row, with its text, heading and tenant, and there are no
    others.
   */
  lemma MirrorOverRuns(env: Env, ops: seq<Op>)
    requires EnvOk(env)
    ensures var s := Run(env, EMPTY, ops);
            && |s.fts| == |s.chunks|
            && (forall c :: c in s.chunks ==> FtsRow(c.text, c.heading, c.id, c.tenant) in s.fts)
            && (forall i, j :: 0 <= i < j < |s.fts| ==> s.fts[i].chunkId != s.fts[j].chunkId)
            && (forall r :: r in s.fts ==> exists c :: c in s.chunks && c.id == r.chunkId)
  {
    InitInv();
    RunKeeps(env, EMPTY, ops);
    var s := Run(env, EMPTY, ops);
    hide Run;
    var m := Each(s.chunks, MirrorRow());
    assert multiset(s.fts) == multiset(m);
    assert |s.fts| == |multiset(s.fts)| == |multiset(m)| == |m|;
    forall c | c in s.chunks ensures FtsRow(c.text, c.heading, c.id, c.tenant) in s.fts {
      var i :| 0 <= i < |s.chunks| && s.chunks[i] == c;
      assert m[i] in multiset(s.fts);
    }
    RowsHaveChunkIds(s.chunks, s.fts);
    MirrorDistinct(s.chunks, s.fts);
  }

  /** The first full-text row comes from some chunk; without both, the tables still mirror each other. */
  lemma PickRow(chunks: seq<Chunk>, fts: seq<FtsRow>) returns (before: seq<Chunk>, c: Chunk, after: seq<Chunk>)
    requires fts != [] && multiset(fts) == multiset(Each(chunks, MirrorRow()))
    ensures chunks == before + [c] + after && fts[0] == MirrorRow()(c)
    ensures multiset(fts[1..]) == multiset(Each(before + after, MirrorRow()))
  {
    var m := Each(chunks, MirrorRow());
    assert fts[0] in multiset(m);
    var k :| 0 <= k < |m| && m[k] == fts[0];
    before, c, after := chunks[..k], chunks[k], chunks[k + 1..];
    assert chunks == before + [c] + after;
    EachConcat(before, [c], MirrorRow());
    EachConcat(before + [c], after, MirrorRow());
    EachConcat(before, after, MirrorRow());
    assert Each([c], MirrorRow()) == [fts[0]];
    BagMinus(fts, Each(before, MirrorRow()), fts[0], Each(after, MirrorRow()));
  }

  lemma RowsHaveChunkIds(chunks: seq<Chunk>, fts: seq<FtsRow>)
    requires multiset(fts) == multiset(Each(chunks, MirrorRow()))
    ensures forall r :: r in fts ==> exists c :: c in chunks && c.id == r.chunkId
  {
    var m := Each(chunks, MirrorRow());
    forall r | r in fts ensures exists c :: c in chunks && c.id == r.chunkId {
      assert r in multiset(m);
      var i :| 0 <= i < |m| && m[i] == r;
      assert chunks[i] in chunks;
    }
  }

  lemma {:induction false} MirrorDistinct(chunks: seq<Chunk>, fts: seq<FtsRow>)
    requires Distinct(chunks) && multiset(fts) == multiset(Each(chunks, MirrorRow()))
    ensures forall i, j :: 0 <= i < j < |fts| ==> fts[i].chunkId != fts[j].chunkId
    decreases |fts|
  {
    if fts != [] {
      var before, c, after := PickRow(chunks, fts);
      DistinctMiddle(before, c, after);
      RowsHaveChunkIds(before + after, fts[1..]);
      MirrorDistinct(before + after, fts[1..]);
      hide Distinct;
      forall i, j | 0 <= i < j < |fts| ensures fts[i].chunkId != fts[j].chunkId {
        assert fts[1..][j - 1] == fts[j] && fts[j] in fts[1..];
        if i > 0 {
          assert fts[1..][i - 1] == fts[i];
        }
      }
    }
  }

  lemma {:induction false} DistinctMiddle(before: seq<Chunk>, c: Chunk, after: seq<Chunk>)
    requires Distinct(before + [c] + after)
    ensures Distinct(before + after) && forall e :: e in before + after ==> e.id != c.id
  {
    var all := before + [c] + after;
    if before == [] {
      assert all[1..] == after && before + after == after;
    } else {
      assert all[1..] == before[1..] + [c] + after;
      assert (before + after)[1..] == before[1..] + after;
      DistinctMiddle(before[1..], c, after);
      assert forall e :: e in before[1..] + after ==> e in all[1..];
      assert c in all[1..];
    }
  }

  /** After any run a source has at most one document and no entity is an orphan. */
  lemma NoOrphansOverRuns(env: Env, ops: seq<Op>)
    requires EnvOk(env)
    ensures var s := Run(env, EMPTY, ops);
            && (forall d, e | d in s.documents && e in s.documents ::
                  s.documents[d].sourceId == s.documents[e].sourceId ==> d == e)
            && (forall k :: k in s.entities ==> exists m :: m in s.mentions && m.entity == k)
            && (forall m :: m in s.mentions ==> m.entity in s.entities)
  {
    InitInv();
    RunKeeps(env, EMPTY, ops);
    hide Run, MirrorOk, KeysOk, ClaimsOk, ChunksOk;
  }

  // ---------- quarantine ----------

  predicate Held(s: Store, chunkId: Id) {
    exists c :: c in s.chunks && c.id == chunkId && c.documentId in s.documents && s.documents[c.documentId].quarantine
  }

  /** Quarantined documents own no claims and no mentions. */
  predicate Quiet(s: Store) {
    && (forall k :: k in s.claims ==> !Held(s, k.chunkId))
    && (forall m :: m in s.mentions ==> !Held(s, m.chunkId))
  }

  /** Removing rows, or releasing documents, cannot break the quiet. */
  lemma QuietShrinks(s: Store, t: Store)
    requires Quiet(s)
    requires forall id :: Held(t, id) ==> Held(s, id)
    requires forall k :: k in t.claims ==> k in s.claims
    requires t.mentions <= s.mentions
    ensures Quiet(t)
  {}

  lemma DeleteQuiet(s: Store, ds: set<Id>)
    requires Quiet(s) && Distinct(s.chunks)
    ensures Quiet(DeleteDocuments(s, ds))
  {
    var t := DeleteDocuments(s, ds);
    DeletedRows(s, ds);
    hide Keep, ChunkIds, Distinct;
    QuietShrinks(s, t);
  }

  /** An inserted document does not disturb the others; ids of its chunks are new. */
  lemma InsertQuiet(s: Store, t: Store, tenant: Name, source: Id, d: Document, chunks: seq<Chunk>)
    requires Quiet(s) && IsInsertion(s, t, tenant, source, d, chunks) && KeysOk(s) && ClaimsOk(s) && MentionsOk(s)
         && ChunksOk(s)
    ensures Quiet(t)
  {
    hide Distinct, Each;
    assert s.nextId !in s.documents;
    forall id: Id | id < s.nextId && Held(t, id) ensures Held(s, id) {
      var c :| c in t.chunks && c.id == id && c.documentId in t.documents && t.documents[c.documentId].quarantine;
      assert c in s.chunks;
      assert HasDocument(s, c.tenant, c.documentId);
    }
    forall k | k in t.claims ensures k.chunkId < s.nextId {
      var c :| c in s.chunks && OwnsClaim(c, k);
    }
    forall m | m in t.mentions ensures m.chunkId < s.nextId {
      var c :| c in s.chunks && OwnsMention(c, m);
    }
  }

  /** Mining chunks of documents that are not held is quiet. */
  lemma MineQuiet(s: Store, env: Env, chunks: seq<Chunk>)
    requires Quiet(s) && forall c :: c in chunks ==> !Held(s, c.id)
    ensures Quiet(Mine(s, env, chunks))
  {
    var t := Mine(s, env, chunks);
    AllClaimsOwned(env, chunks);
    forall id ensures Held(t, id) <==> Held(s, id) {}
    hide AllClaims;
    forall k | k in t.claims ensures !Held(t, k.chunkId) {
      if k in AllClaims(env, chunks) {
        var c :| c in chunks && OwnsClaim(c, k);
      }
    }
    forall m | m in t.mentions ensures !Held(t, m.chunkId) {
      if m in AllMentions(env, chunks) {
        var c :| c in chunks && m in MentionsOf(env, c);
      }
    }
  }

  lemma InsertedIsHeld(s: Store, t: Store, tenant: Name, source: Id, d: Document, chunks: seq<Chunk>)
    requires IsInsertion(s, t, tenant, source, d, chunks) && KeysOk(s)
    ensures forall c :: c in chunks ==> (Held(t, c.id) <==> d.quarantine)
  {
    hide Each, Distinct;
    forall c | c in chunks ensures Held(t, c.id) <==> d.quarantine {
      assert c in t.chunks && c.documentId == s.nextId && t.documents[s.nextId] == d && c.id > s.nextId;
      if Held(t, c.id) {
        var e :| e in t.chunks && e.id == c.id && e.documentId in t.documents && t.documents[e.documentId].quarantine;
        assert e !in s.chunks;
      }
    }
  }

  /** The caller's metadata did not ask for quarantine unless the scan does too. */
  predicate HonestFlag(env: Env, content: string, flagged: bool) {
    flagged ==> env.poisoned(env.extract(content).text)
  }

  lemma IngestQuiet(s: Store, env: Env, tenant: Name, source: Id, content: string, flagged: bool)
    requires Inv(s) && Quiet(s) && HonestFlag(env, content, flagged)
    ensures Quiet(Ingest(s, env, tenant, source, content, flagged).0)
  {
    if HasSource(s, tenant, source) && !AlreadyIngested(s, source, tenant, env.sha(content)) {
      PartsOfInv(s);
      hide Inv, Ingest, Mine, DeleteDocuments, NewChunks, Quiet, IsInsertion, Held;
      var cleared, inserted, chunks := IngestInserts(s, env, tenant, source, content, flagged);
      var d := NewDocument(env, tenant, source, content, flagged);
      DeleteQuiet(s, Superseded(s, tenant, source));
      DeleteKeeps(s, Superseded(s, tenant, source));
      PartsOfInv(cleared);
      InsertQuiet(cleared, inserted, tenant, source, d, chunks);
      if !env.poisoned(env.extract(content).text) {
        InsertedIsHeld(cleared, inserted, tenant, source, d, chunks);
        MineQuiet(inserted, env, chunks);
      }
    }
  }

  lemma PartsOfInv(s: Store)
    requires Inv(s)
    ensures KeysOk(s) && ClaimsOk(s) && MentionsOk(s) && ChunksOk(s) && DocumentsOk(s)
  {}

  /**
    Ingesting content that is not poisoned keeps the quiet exactly when the caller's metadata does not set the
    quarantine flag or there is nothing to mine.
   */
  lemma FlaggedIngestIsExact(s: Store, env: Env, tenant: Name, source: Id, content: string, flagged: bool)
    requires Inv(s) && Quiet(s) && HasSource(s, tenant, source) && !AlreadyIngested(s, source, tenant, env.sha(content))
    requires !env.poisoned(env.extract(content).text)
    ensures var chunks := NewChunks(tenant, s.nextId, s.nextId + 1, env.extract(content).pieces);
            Quiet(Ingest(s, env, tenant, source, content, flagged).0)
            <==> (!flagged || (AllClaims(env, chunks) == [] && AllMentions(env, chunks) == {}))
  {
    PartsOfInv(s);
    hide Inv, Ingest, DeleteDocuments, NewChunks, IsInsertion;
    var cleared, inserted, chunks := IngestInserts(s, env, tenant, source, content, flagged);
    var d := NewDocument(env, tenant, source, content, flagged);
    DeleteQuiet(s, Superseded(s, tenant, source));
    DeleteKeeps(s, Superseded(s, tenant, source));
    PartsOfInv(cleared);
    InsertQuiet(cleared, inserted, tenant, source, d, chunks);
    InsertedIsHeld(cleared, inserted, tenant, source, d, chunks);
    if flagged {
      MinedHeldIsLoud(inserted, env, chunks);
    } else {
      hide Quiet, Held, Mine;
      MineQuiet(inserted, env, chunks);
    }
  }

  /** Every piece makes one claim, and nothing looks poisoned. */
  const PLAIN := Env((text: string) => text, (content: string) => Page(content, None, [Piece("", content)]),
                     (text: string) => false, (text: string) => [Found(text, "statement")], (text: string) => [],
                     (c: char) => c, (c: char) => c)

  const FLAGGED: seq<Op> := [Add("acme", "notes.md", None, None), IngestContent("acme", 0, "Water is wet.", true)]

  /** Clean content ingested with the flag set: the document is held and mined all the same. */
  lemma FlaggedIngestIsLoud()
    ensures !Quiet(Run(PLAIN, EMPTY, FLAGGED))
  {
    var s := Step(PLAIN, EMPTY, FLAGGED[0]);
    assert s == EMPTY.(sources := map[0 := Source("acme", "notes.md", None, None)], nextId := 1);
    assert Inv(s) && Quiet(s) && HasSource(s, "acme", 0) by { StepKeeps(PLAIN, EMPTY, FLAGGED[0]); }
    FlaggedIngestIsExact(s, PLAIN, "acme", 0, "Water is wet.", true);
    var pieces := [Piece("", "Water is wet.")];
    var chunks := NewChunks("acme", 1, 2, pieces);
    assert PLAIN.extract("Water is wet.").pieces == pieces;
    assert |ClaimsOf(PLAIN, chunks[0])| == 1;
    assert AllClaims(PLAIN, chunks) != [];
    var t := Step(PLAIN, s, FLAGGED[1]);
    hide Step;
    assert FLAGGED[1..][1..] == [] && Run(PLAIN, t, []) == t;
    assert Run(PLAIN, s, FLAGGED[1..]) == t;
  }

  lemma MinedHeldIsLoud(s: Store, env: Env, chunks: seq<Chunk>)
    requires Quiet(s) && forall c :: c in chunks ==> Held(s, c.id)
    ensures Quiet(Mine(s, env, chunks)) <==> (AllClaims(env, chunks) == [] && AllMentions(env, chunks) == {})
  {
    var t := Mine(s, env, chunks);
    forall id ensures Held(t, id) <==> Held(s, id) {}
    AllClaimsOwned(env, chunks);
    hide AllClaims;
    if AllClaims(env, chunks) != [] {
      var k := AllClaims(env, chunks)[0];
      assert k in t.claims;
      var c :| c in chunks && OwnsClaim(c, k);
      assert Held(t, k.chunkId);
    }
    if m :| m in AllMentions(env, chunks) {
      var c :| c in chunks && m in MentionsOf(env, c);
      assert m in t.mentions && Held(t, m.chunkId);
    }
  }

  lemma HoldQuiet(s: Store, env: Env, tenant: Name, id: Id, hold: bool)
    requires Inv(s) && Quiet(s)
    ensures Quiet(SetQuarantine(s, env, tenant, id, hold).0)
  {
    if HasDocument(s, tenant, id) {
      OwnChunks(s, id);
      PartsOfInv(s);
      KeepIn(s.claims, ClaimNotOfDocument(id));
      var own := Keep(s.chunks, OfDocuments({id}));
      var was := s.documents[id].quarantine;
      var marked := s.(documents := s.documents[id := s.documents[id].(quarantine := hold)]);
      hide Keep, ChunkIds, Inv, Mine;
      if !hold && was {
        var dropped := marked.(claims := Keep(s.claims, ClaimNotOfDocument(id)));
        QuietShrinks(s, dropped);
        ReleasedIsFree(s, dropped, id);
        MineQuiet(dropped, env, own);
      } else if hold && !was {
        HoldingQuiet(s, SetQuarantine(s, env, tenant, id, hold).0, id, ChunkIds(own));
      } else {
        QuietShrinks(s, marked);
      }
    }
  }

  lemma ReleasedIsFree(s: Store, t: Store, id: Id)
    requires KeysOk(s) && id in t.documents && !t.documents[id].quarantine && t.chunks == s.chunks
    ensures forall c :: c in s.chunks && c.documentId == id ==> !Held(t, c.id)
  {
    DistinctUnique(s.chunks);
  }

  lemma HoldingQuiet(s: Store, t: Store, id: Id, ids: set<Id>)
    requires Quiet(s) && KeysOk(s) && ClaimsOk(s) && id in s.documents
    requires t.chunks == s.chunks && t.documents == s.documents[id := s.documents[id].(quarantine := true)]
    requires forall c :: c in s.chunks ==> (c.id in ids <==> c.documentId == id)
    requires forall k :: k in t.claims <==> k in s.claims && k.documentId != id
    requires t.mentions == set m | m in s.mentions && m.chunkId !in ids
    ensures Quiet(t)
  {
    DistinctUnique(s.chunks);
    hide Distinct;
    forall k | k in t.claims ensures !Held(t, k.chunkId) {
      var c :| c in s.chunks && OwnsClaim(c, k);
    }
  }

  lemma RedactQuiet(s: Store, env: Env, tenant: Name, term: string, replacement: string)
    requires Quiet(s)
    ensures Quiet(RedactTerm(s, env, tenant, term, replacement).0)
  {
    if |term| >= 2 {
      hide Scrub, ScrubOption, ChunkHit, ClaimHit, EntityHit, SourceHit, HitDocuments, Keep;
      var t := RedactTerm(s, env, tenant, term, replacement).0;
      forall id | Held(t, id) ensures Held(s, id) {
        var c :| c in t.chunks && c.id == id && c.documentId in t.documents && t.documents[c.documentId].quarantine;
        var i :| 0 <= i < |s.chunks| && t.chunks[i] == c;
        assert s.chunks[i] in s.chunks;
      }
      forall k | k in t.claims ensures !Held(t, k.chunkId) {
        var i :| 0 <= i < |s.claims| && t.claims[i] == k;
        assert s.claims[i] in s.claims;
      }
    }
  }

  lemma EraseQuiet(s: Store, tenant: Name)
    requires Quiet(s)
    ensures Quiet(EraseTenant(s, tenant))
  {
    KeepIn(s.chunks, ChunkOfOthers(tenant));
    KeepIn(s.claims, ClaimOfOthers(tenant));
    hide Keep;
    QuietShrinks(s, EraseTenant(s, tenant));
  }

  predicate HonestOp(env: Env, op: Op) {
    op.IngestContent? ==> HonestFlag(env, op.content, op.flagged)
  }

  lemma StepQuiet(env: Env, s: Store, op: Op)
    requires Inv(s) && Quiet(s) && HonestOp(env, op)
    ensures Quiet(Step(env, s, op))
  {
    PartsOfInv(s);
    hide Inv, Ingest, SetQuarantine, RedactTerm, EraseTenant, DeleteDocuments, Quiet, Distinct, ClaimsOk, MentionsOk,
      ChunksOk, DocumentsOk;
    match op
    case Add(tenant, locator, title, owner) => QuietShrinks(s, AddSource(s, tenant, locator, title, owner));
    case IngestContent(tenant, source, content, flagged) => IngestQuiet(s, env, tenant, source, content, flagged);
    case Remove(tenant, source) =>
      if HasSource(s, tenant, source) {
        DeleteQuiet(s, DocumentsOf(s, source));
        QuietShrinks(DeleteDocuments(s, DocumentsOf(s, source)), Step(env, s, op));
      }
    case Quarantine(tenant, document, hold) => HoldQuiet(s, env, tenant, document, hold);
    case Redact(tenant, term, replacement) => RedactQuiet(s, env, tenant, term, replacement);
    case Erase(tenant) => EraseQuiet(s, tenant);
  }

  /** Over any run in which callers leave the quarantine flag to the scan, quarantined documents own nothing. */
  lemma {:induction false} QuietOverRuns(env: Env, s: Store, ops: seq<Op>)
    requires EnvOk(env) && Inv(s) && Quiet(s) && forall op :: op in ops ==> HonestOp(env, op)
    ensures Quiet(Run(env, s, ops))
    decreases |ops|
  {
    hide Inv, Quiet, Step, HonestOp;
    if ops != [] {
      assert ops[0] in ops;
      assert forall op :: op in ops[1..] ==> op in ops;
      StepQuiet(env, s, ops[0]);
      StepKeeps(env, s, ops[0]);
      QuietOverRuns(env, Step(env, s, ops[0]), ops[1..]);
    }
  }

  // ---------- redaction ----------

  lemma ScrubErasesAll(env: Env, term: string, replacement: string)
    requires term != [] && Erasing(env.sqlFold, env.regexFold, term, replacement) && Finer(env.sqlFold, env.regexFold)
    ensures forall text :: !Occurs(env.sqlFold, term, Scrub(env, term, replacement, text))
  {
    forall text ensures !Occurs(env.sqlFold, term, Scrub(env, term, replacement, text)) {
      ErasingErases(env.sqlFold, env.regexFold, term, text, replacement);
    }
  }

  /** After `redactTerm` with an erasing replacement, `findTerm` for the same term finds nothing anywhere. */
  lemma RedactionErases(s: Store, env: Env, tenant: Name, term: string, replacement: string)
    requires |term| >= 2 && Erasing(env.sqlFold, env.regexFold, term, replacement) && Finer(env.sqlFold, env.regexFold)
    ensures NothingFound(RedactTerm(s, env, tenant, term, replacement).0, env, tenant, term)
  {
    ScrubErasesAll(env, term, replacement);
    hide Scrub, Occurs, Keep, Erasing, Finer;
    var t := RedactTerm(s, env, tenant, term, replacement).0;
    forall c | c in t.chunks ensures !ChunkHit(env, tenant, term, c) {
      var i :| 0 <= i < |s.chunks| && t.chunks[i] == c;
    }
    forall c | c in t.claims ensures !ClaimHit(env, tenant, term, c) {
      var i :| 0 <= i < |s.claims| && t.claims[i] == c;
    }
    forall d | d in t.documents ensures !DocumentHit(env, tenant, term, t.documents[d]) {
      if DocumentHit(env, tenant, term, s.documents[d]) {
        assert d in HitDocuments(s, env, tenant, term);
      }
    }
  }

  /** A source whose title keeps the term. */
  lemma TitleKeepsTerm(env: Env, tenant: Name, term: string, replacement: string, title: string)
    requires |term| >= 2 && Occurs(env.sqlFold, term, title)
    requires Occurs(env.sqlFold, term, Scrub(env, term, replacement, title))
    ensures var s := Run(env, EMPTY, [Add(tenant, "locator", Some(title), None)]);
            !NothingFound(RedactTerm(s, env, tenant, term, replacement).0, env, tenant, term)
  {
    hide Scrub, Occurs, Keep;
    var add := Add(tenant, "locator", Some(title), None);
    var s := Step(env, EMPTY, add);
    assert Run(env, EMPTY, [add]) == s by {
      assert [add][1..] == [] && Run(env, s, []) == s;
    }
    var x :| x in s.sources && s.sources[x].title == Some(title) && s.sources[x].tenant == tenant;
    assert SourceHit(env, tenant, term, s.sources[x]);
    var t := RedactTerm(s, env, tenant, term, replacement).0;
    assert SourceHit(env, tenant, term, t.sources[x]);
  }

  /** Redaction leaves nothing to find after every run exactly when the replacement is erasing. */
  lemma RedactionIsExact(env: Env, tenant: Name, term: string, replacement: string)
    requires |term| >= 2 && Finer(env.sqlFold, env.regexFold)
    ensures (forall ops: seq<Op> ::
               NothingFound(RedactTerm(Run(env, EMPTY, ops), env, tenant, term, replacement).0, env, tenant, term))
       <==> Erasing(env.sqlFold, env.regexFold, term, replacement)
  {
    hide Run, RedactTerm, NothingFound, Erasing, Finer, Occurs, Scrub;
    if Erasing(env.sqlFold, env.regexFold, term, replacement) {
      forall ops: seq<Op>
        ensures NothingFound(RedactTerm(Run(env, EMPTY, ops), env, tenant, term, replacement).0, env, tenant, term)
      {
        RedactionErases(Run(env, EMPTY, ops), env, tenant, term, replacement);
      }
    } else {
      var title := Survivor(env.sqlFold, env.regexFold, term, replacement);
      ScrubIsReplaceAll(env, term, replacement, title);
      TitleKeepsTerm(env, tenant, term, replacement, title);
      var ops := [Add(tenant, "locator", Some(title), None)];
      assert !NothingFound(RedactTerm(Run(env, EMPTY, ops), env, tenant, term, replacement).0, env, tenant, term);
    }
  }

  lemma ScrubIsReplaceAll(env: Env, term: string, replacement: string, text: string)
    requires term != []
    ensures Scrub(env, term, replacement, text) == ReplaceAll(env.regexFold, term, text, replacement)
  {}
}
