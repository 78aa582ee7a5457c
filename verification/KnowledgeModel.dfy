/**
  The knowledge store as values: sources, documents, chunks, the full-text mirror, claims, entities and mentions,
  and what each operation does to them. Text extraction, chunking, claim and entity recognition and the injection
  scan are parameters. An entity is identified by its unique key (tenant, canonical name, kind).
 */
module KnowledgeModel {
  import opened Basics
  import opened Redaction
  import opened Rows

  type Id = nat

  datatype Source = Source(tenant: Name, locator: string, title: Option<string>, owner: Option<string>)

  /** `quarantine` is `metadata.quarantine === true`. */
  datatype Document = Document(
    tenant: Name, sourceId: Id, fingerprint: string, title: Option<string>, content: string, quarantine: bool)

  datatype Chunk = Chunk(id: Id, tenant: Name, documentId: Id, ordinal: nat, heading: string, text: string)

  datatype FtsRow = FtsRow(text: string, heading: string, chunkId: Id, tenant: Name)

  datatype Claim = Claim(tenant: Name, chunkId: Id, documentId: Id, text: string, kind: string)

  datatype EntityKey = EntityKey(tenant: Name, canonical: string, kind: string)

  datatype Mention = Mention(entity: EntityKey, chunkId: Id, surface: string)

  datatype Store = Store(
    sources: map<Id, Source>,
    documents: map<Id, Document>,
    chunks: seq<Chunk>,
    fts: seq<FtsRow>,
    claims: seq<Claim>,
    entities: map<EntityKey, set<string>>, // aliases
    mentions: set<Mention>,
    nextId: Id)

  const EMPTY := Store(map[], map[], [], [], [], map[], {}, 0)

  datatype Piece = Piece(heading: string, text: string)

  datatype Page = Page(text: string, title: Option<string>, pieces: seq<Piece>)

  datatype Found = Found(text: string, kind: string)

  datatype Resolved = Resolved(canonical: string, kind: string, surfaces: set<string>)

  datatype Env = Env(
    sha: string -> string,
    extract: string -> Page,
    poisoned: string -> bool,
    claims: string -> seq<Found>,      // already filtered by confidence
    entities: string -> seq<Resolved>,
    sqlFold: Fold,
    regexFold: Fold)

  datatype Error = NotFound | Validation

  // ---------- conditions and projections ----------

  function OfDocuments(ds: set<Id>): Chunk -> bool { (c: Chunk) => c.documentId in ds }
  function NotOfDocuments(ds: set<Id>): Chunk -> bool { (c: Chunk) => c.documentId !in ds }
  function FtsOutside(ids: set<Id>): FtsRow -> bool { (r: FtsRow) => r.chunkId !in ids }
  function ClaimOutside(ids: set<Id>): Claim -> bool { (c: Claim) => c.chunkId !in ids }
  function ClaimNotOfDocument(d: Id): Claim -> bool { (c: Claim) => c.documentId != d }
  function MirrorRow(): Chunk -> FtsRow { (c: Chunk) => FtsRow(c.text, c.heading, c.id, c.tenant) }

  function ChunkIds(chunks: seq<Chunk>): set<Id> {
    set c | c in chunks :: c.id
  }

  function DocumentsOf(s: Store, source: Id): set<Id> {
    set d | d in s.documents && s.documents[d].sourceId == source
  }

  predicate Mentioned(mentions: set<Mention>, k: EntityKey) {
    exists m :: m in mentions && m.entity == k
  }

  // ---------- deleting documents ----------

  /**
    `#deleteDocumentRows` for a set of documents: their full-text rows, the documents with everything that
    cascades from them, and then every entity, of any tenant, that nothing mentions any more.
   */
  function DeleteDocuments(s: Store, ds: set<Id>): Store {
    var ids := ChunkIds(Keep(s.chunks, OfDocuments(ds)));
    var mentions := set m | m in s.mentions && m.chunkId !in ids;
    s.(fts := Keep(s.fts, FtsOutside(ids)),
       documents := s.documents - ds,
       chunks := Keep(s.chunks, NotOfDocuments(ds)),
       claims := Keep(s.claims, ClaimOutside(ids)),
       mentions := mentions,
       entities := map k | k in s.entities && Mentioned(mentions, k) :: s.entities[k])
  }

  // ---------- mining a chunk for claims and entities ----------

  function ClaimsOf(env: Env, c: Chunk): seq<Claim> {
    Each(env.claims(c.text), (f: Found) => Claim(c.tenant, c.id, c.documentId, f.text, f.kind))
  }

  function AllClaims(env: Env, chunks: seq<Chunk>): seq<Claim> {
    if chunks == [] then [] else AllClaims(env, chunks[..|chunks| - 1]) + ClaimsOf(env, chunks[|chunks| - 1])
  }

  function MentionsOf(env: Env, c: Chunk): set<Mention> {
    set r, s | r in env.entities(c.text) && s in r.surfaces ::
      Mention(EntityKey(c.tenant, r.canonical, r.kind), c.id, s)
  }

  function AllMentions(env: Env, chunks: seq<Chunk>): set<Mention> {
    set c, m | c in chunks && m in MentionsOf(env, c) :: m
  }

  /** `INSERT OR IGNORE` of an entity followed by the union of its aliases. */
  function Upsert(entities: map<EntityKey, set<string>>, k: EntityKey, surfaces: set<string>)
    : map<EntityKey, set<string>>
  {
    entities[k := (if k in entities then entities[k] else {}) + surfaces]
  }

  function UpsertAll(entities: map<EntityKey, set<string>>, tenant: Name, rs: seq<Resolved>)
    : map<EntityKey, set<string>>
  {
    if rs == [] then entities
    else
      var r := rs[|rs| - 1];
      Upsert(UpsertAll(entities, tenant, rs[..|rs| - 1]), EntityKey(tenant, r.canonical, r.kind), r.surfaces)
  }

  function MineEntities(env: Env, entities: map<EntityKey, set<string>>, chunks: seq<Chunk>)
    : map<EntityKey, set<string>>
  {
    if chunks == [] then entities
    else
      var c := chunks[|chunks| - 1];
      UpsertAll(MineEntities(env, entities, chunks[..|chunks| - 1]), c.tenant, env.entities(c.text))
  }

  function Mine(s: Store, env: Env, chunks: seq<Chunk>): Store {
    s.(claims := s.claims + AllClaims(env, chunks),
       mentions := s.mentions + AllMentions(env, chunks),
       entities := MineEntities(env, s.entities, chunks))
  }

  // ---------- operations ----------

  predicate HasSource(s: Store, tenant: Name, id: Id) {
    id in s.sources && s.sources[id].tenant == tenant
  }

  predicate HasDocument(s: Store, tenant: Name, id: Id) {
    id in s.documents && s.documents[id].tenant == tenant
  }

  predicate IsSource(x: Source, tenant: Name, locator: string) {
    x.tenant == tenant && x.locator == locator
  }

  /** Adds a source, or updates the one with this locator. */
  function AddSource(s: Store, tenant: Name, locator: string, title: Option<string>, owner: Option<string>): Store {
    var row := Source(tenant, locator, title, owner);
    if exists x :: x in s.sources && IsSource(s.sources[x], tenant, locator)
    then s.(sources := map x | x in s.sources :: if IsSource(s.sources[x], tenant, locator) then row else s.sources[x])
    else s.(sources := s.sources[s.nextId := row], nextId := s.nextId + 1)
  }

  function NewChunks(tenant: Name, document: Id, firstId: Id, pieces: seq<Piece>): (r: seq<Chunk>)
    ensures |r| == |pieces|
  {
    seq(|pieces|, i requires 0 <= i < |pieces| =>
      Chunk(firstId + i, tenant, document, i, pieces[i].heading, pieces[i].text))
  }

  predicate AlreadyIngested(s: Store, source: Id, tenant: Name, fingerprint: string) {
    exists d :: d in s.documents && s.documents[d].tenant == tenant && s.documents[d].sourceId == source
                && s.documents[d].fingerprint == fingerprint
  }

  /** The document row of a fresh ingestion; `flagged` says that the caller's metadata sets `quarantine: true`. */
  function NewDocument(env: Env, tenant: Name, source: Id, content: string, flagged: bool): Document {
    var page := env.extract(content);
    Document(tenant, source, env.sha(content), page.title, page.text, flagged || env.poisoned(page.text))
  }

  /** Supersede the source's document: remove it, insert the new one and its chunks, and mine them unless poisoned. */
  function Ingest(s: Store, env: Env, tenant: Name, source: Id, content: string, flagged: bool)
    : (Store, Option<Error>)
  {
    if !HasSource(s, tenant, source) then (s, Some(NotFound))
    else if AlreadyIngested(s, source, tenant, env.sha(content)) then (s, None)
    else
      var page := env.extract(content);
      var superseded :=
        set d | d in s.documents && s.documents[d].tenant == tenant && s.documents[d].sourceId == source;
      var cleared := DeleteDocuments(s, superseded);
      var document := s.nextId;
      var chunks := NewChunks(tenant, document, document + 1, page.pieces);
      var inserted := cleared.(
        documents := cleared.documents[document := NewDocument(env, tenant, source, content, flagged)],
        chunks := cleared.chunks + chunks,
        fts := cleared.fts + Each(chunks, MirrorRow()),
        nextId := document + 1 + |chunks|);
      (if env.poisoned(page.text) then inserted else Mine(inserted, env, chunks), None)
  }

  function DeleteSource(s: Store, tenant: Name, id: Id): (Store, Option<Error>) {
    if !HasSource(s, tenant, id) then (s, Some(NotFound))
    else
      var cleared := DeleteDocuments(s, DocumentsOf(s, id));
      (cleared.(sources := cleared.sources - {id}), None)
  }

  /** Hold or release a document; the orphan sweep here is limited to the tenant. */
  function SetQuarantine(s: Store, env: Env, tenant: Name, id: Id, hold: bool): (Store, Option<Error>) {
    if !HasDocument(s, tenant, id) then (s, Some(NotFound))
    else
      var was := s.documents[id].quarantine;
      var marked := s.(documents := s.documents[id := s.documents[id].(quarantine := hold)]);
      var own := Keep(s.chunks, OfDocuments({id}));
      if !hold && was then
        (Mine(marked.(claims := Keep(s.claims, ClaimNotOfDocument(id))), env, own), None)
      else if hold && !was then
        var mentions := set m | m in s.mentions && m.chunkId !in ChunkIds(own);
        (marked.(claims := Keep(s.claims, ClaimNotOfDocument(id)),
                 mentions := mentions,
                 entities := map k | k in s.entities && (k.tenant != tenant || Mentioned(mentions, k)) ::
                               s.entities[k]), None)
      else (marked, None)
  }

  // ---------- finding and redacting a term ----------

  predicate Holds(env: Env, term: string, o: Option<string>) {
    o.Some? && Occurs(env.sqlFold, term, o.value)
  }

  predicate ChunkHit(env: Env, tenant: Name, term: string, c: Chunk) {
    c.tenant == tenant && (Occurs(env.sqlFold, term, c.text) || Occurs(env.sqlFold, term, c.heading))
  }

  predicate ClaimHit(env: Env, tenant: Name, term: string, c: Claim) {
    c.tenant == tenant && Occurs(env.sqlFold, term, c.text)
  }

  predicate EntityHit(env: Env, tenant: Name, term: string, k: EntityKey, aliases: set<string>) {
    && k.tenant == tenant
    && (Occurs(env.sqlFold, term, k.canonical) || exists a :: a in aliases && Occurs(env.sqlFold, term, a))
  }

  predicate DocumentHit(env: Env, tenant: Name, term: string, d: Document) {
    d.tenant == tenant && Holds(env, term, d.title)
  }

  predicate SourceHit(env: Env, tenant: Name, term: string, s: Source) {
    s.tenant == tenant && (Holds(env, term, s.title) || Holds(env, term, s.owner))
  }

  /** `findTerm` finds nothing. */
  predicate NothingFound(s: Store, env: Env, tenant: Name, term: string) {
    && (forall c :: c in s.chunks ==> !ChunkHit(env, tenant, term, c))
    && (forall c :: c in s.claims ==> !ClaimHit(env, tenant, term, c))
    && (forall k :: k in s.entities ==> !EntityHit(env, tenant, term, k, s.entities[k]))
    && (forall d :: d in s.documents ==> !DocumentHit(env, tenant, term, s.documents[d]))
    && (forall x :: x in s.sources ==> !SourceHit(env, tenant, term, s.sources[x]))
  }

  function Scrub(env: Env, term: string, replacement: string, text: string): string
    requires term != []
  {
    ReplaceAll(env.regexFold, term, text, replacement)
  }

  function ScrubOption(env: Env, term: string, replacement: string, o: Option<string>): Option<string>
    requires term != []
  {
    if o.Some? then Some(Scrub(env, term, replacement, o.value)) else None
  }

  function ScrubChunk(env: Env, tenant: Name, term: string, replacement: string): Chunk -> Chunk
    requires term != []
  {
    (c: Chunk) =>
      if ChunkHit(env, tenant, term, c)
      then c.(text := Scrub(env, term, replacement, c.text), heading := Scrub(env, term, replacement, c.heading))
      else c
  }

  function ScrubClaim(env: Env, tenant: Name, term: string, replacement: string): Claim -> Claim
    requires term != []
  {
    (c: Claim) => if ClaimHit(env, tenant, term, c) then c.(text := Scrub(env, term, replacement, c.text)) else c
  }

  function HitChunks(env: Env, tenant: Name, term: string): Chunk -> bool {
    (c: Chunk) => ChunkHit(env, tenant, term, c)
  }

  /** Documents to scrub: those of a found chunk and those with the term in their title. */
  function HitDocuments(s: Store, env: Env, tenant: Name, term: string): set<Id> {
    (set c | c in s.chunks && ChunkHit(env, tenant, term, c) :: c.documentId)
    + (set d | d in s.documents && DocumentHit(env, tenant, term, s.documents[d]))
  }

  function RedactTerm(s: Store, env: Env, tenant: Name, term: string, replacement: string): (Store, Option<Error>) {
    if |term| < 2 then (s, Some(Validation))
    else
      var hit := Keep(s.chunks, HitChunks(env, tenant, term));
      var ids := ChunkIds(hit);
      var scrubbed := Each(hit, ScrubChunk(env, tenant, term, replacement));
      var ds := HitDocuments(s, env, tenant, term);
      var gone := set k | k in s.entities && EntityHit(env, tenant, term, k, s.entities[k]);
      (s.(chunks := Each(s.chunks, ScrubChunk(env, tenant, term, replacement)),
          fts := Keep(s.fts, FtsOutside(ids)) + Each(scrubbed, MirrorRow()),
          claims := Each(s.claims, ScrubClaim(env, tenant, term, replacement)),
          documents := map d | d in s.documents ::
            if d in ds
            then s.documents[d].(content := Scrub(env, term, replacement, s.documents[d].content),
                                 title := ScrubOption(env, term, replacement, s.documents[d].title))
            else s.documents[d],
          sources := map x | x in s.sources ::
            if SourceHit(env, tenant, term, s.sources[x])
            then s.sources[x].(title := ScrubOption(env, term, replacement, s.sources[x].title),
                               owner := ScrubOption(env, term, replacement, s.sources[x].owner))
            else s.sources[x],
          entities := s.entities - gone,
          mentions := set m | m in s.mentions && m.entity !in gone), None)
  }

  // ---------- erasure ----------

  function FtsOfOthers(tenant: Name): FtsRow -> bool { (r: FtsRow) => r.tenant != tenant }
  function ChunkOfOthers(tenant: Name): Chunk -> bool { (c: Chunk) => c.tenant != tenant }
  function ClaimOfOthers(tenant: Name): Claim -> bool { (c: Claim) => c.tenant != tenant }

  /** `eraseTenant`, knowledge tables: full text first, then mentions of the tenant's entities, then the rest. */
  function EraseTenant(s: Store, tenant: Name): Store {
    s.(fts := Keep(s.fts, FtsOfOthers(tenant)),
       mentions := (set m | m in s.mentions && m.entity.tenant != tenant),
       claims := Keep(s.claims, ClaimOfOthers(tenant)),
       chunks := Keep(s.chunks, ChunkOfOthers(tenant)),
       documents := map d | d in s.documents && s.documents[d].tenant != tenant :: s.documents[d],
       sources := map x | x in s.sources && s.sources[x].tenant != tenant :: s.sources[x],
       entities := map k | k in s.entities && k.tenant != tenant :: s.entities[k])
  }

  // ---------- runs ----------

  datatype Op =
    | Add(tenant: Name, locator: string, title: Option<string>, owner: Option<string>)
    | IngestContent(tenant: Name, source: Id, content: string, flagged: bool)
    | Remove(tenant: Name, source: Id)
    | Quarantine(tenant: Name, document: Id, hold: bool)
    | Redact(tenant: Name, term: string, replacement: string)
    | Erase(tenant: Name)

  function Step(env: Env, s: Store, op: Op): Store {
    match op
    case Add(tenant, locator, title, owner) => AddSource(s, tenant, locator, title, owner)
    case IngestContent(tenant, source, content, flagged) => Ingest(s, env, tenant, source, content, flagged).0
    case Remove(tenant, source) => DeleteSource(s, tenant, source).0
    case Quarantine(tenant, document, hold) => SetQuarantine(s, env, tenant, document, hold).0
    case Redact(tenant, term, replacement) => RedactTerm(s, env, tenant, term, replacement).0
    case Erase(tenant) => EraseTenant(s, tenant)
  }

  function Run(env: Env, s: Store, ops: seq<Op>): Store
    decreases |ops|
  {
    if ops == [] then s else Run(env, Step(env, s, ops[0]), ops[1..])
  }
}
