/**
 The PostgreSQL tables, and what each repository statement does to them.

 Every statement is a function from the tables to the tables. The repositories flush and never
 commit, so a transaction is a chain of these functions and a commit publishes the result.
 */
module Tables {
  import opened Identifiers
  import opened Text

  datatype Status = Pending | Processing | Parsed | Chunked | Ready | Failed

  datatype Reason =
    | InvalidJob | DocumentNotFound | OwnershipMismatch | StorageKeyMismatch
    | ContentHashMismatch | MimeTypeMismatch
    | StorageMissing | StorageReadFailure | UnsupportedMimeType | ProcessingFailure | StaleProcessing
    | PdfOpenFailed | PdfEncrypted | PageLimitExceeded | PdfParseFailed | PdfTimeout | ParserUnavailable
    | PageCountMismatch | NoExtractableText
    | NoExtractedPages | NoChunksProduced | ChunkingFailure
    | NoChunksToEmbed | EmbeddingFailure | VectorStoreFailure | EmbeddingDimensionMismatch

  datatype MimeType = Pdf | OtherMime(name: nat)

  /** Text in a hash column. Only `Sha256` is 64 lowercase hexadecimal characters. */
  datatype Hash = Sha256(digest: nat) | NotSha256(text: nat)

  datatype StorageKey = Key(owner: Uuid, digest: nat) | OtherKey(text: nat)

  /** `document_storage_key`: None where it raises ValueError. */
  function StorageKeyFor(owner: RawId<Uuid>, hash: Hash): Option<StorageKey> {
    if owner.parsed.None? || hash.NotSha256? then None else Some(Key(owner.parsed.value, hash.digest))
  }

  /** What made a chunk: the strategy and the tokenizer that sized it. */
  datatype Version = Version(strategy: string, tokenizer: string)

  /** What embedded a chunk: the model and the width of its vectors. */
  datatype Embedding = Embedding(model: string, dimension: nat)

  /**
   A chunk's id, which is also its point id. The UUID is derived from exactly these fields, and a
   datatype makes the derivation injective.
   */
  datatype ChunkId = ChunkId(document: Uuid, index: nat, version: Version)

  datatype Document = Document(
    owner: Uuid, status: Status, failureReason: Option<Reason>, chunkCount: nat,
    storageKey: Option<StorageKey>, contentHash: Option<Hash>, mimeType: Option<MimeType>,
    pageCount: Option<nat>, updatedAt: nat, deleted: bool)

  datatype ChunkRow = ChunkRow(chunk: Chunk, version: Version, embedding: Option<Embedding>)

  /** A document with the rows that reach ownership through it, each in its reading order. */
  datatype Entry = Entry(row: Document, pages: seq<Page>, chunks: seq<ChunkRow>)

  type Tables = map<Uuid, Entry>

  function IdOf(document: Uuid, row: ChunkRow): ChunkId {
    ChunkId(document, row.chunk.index, row.version)
  }

  // --- the ownership predicate ---------------------------------------------

  /** The user's live document with this id exists. */
  predicate Owned(t: Tables, document: RawId<Uuid>, user: RawId<Uuid>) {
    && document.parsed.Some? && user.parsed.Some?
    && document.parsed.value in t
    && t[document.parsed.value].row.owner == user.parsed.value
    && !t[document.parsed.value].row.deleted
  }

  predicate LiveDocumentExists(t: Tables, document: RawId<Uuid>) {
    document.parsed.Some? && document.parsed.value in t && !t[document.parsed.value].row.deleted
  }

  // --- documents -------------------------------------------------------------

  /** `uq_documents_user_id_content_hash`: one live row per owner and content. */
  predicate UniqueContent(t: Tables) {
    forall a, b | a in t && b in t && a != b && !t[a].row.deleted && !t[b].row.deleted
                  && t[a].row.contentHash.Some? ::
      t[a].row.owner != t[b].row.owner || t[a].row.contentHash != t[b].row.contentHash
  }

  predicate Matches(t: Tables, document: RawId<Uuid>, user: RawId<Uuid>, expected: Status) {
    Owned(t, document, user) && t[document.parsed.value].row.status == expected
  }

  /** `transition_status_for_user`: the compare-and-set. The flag is whether a row matched. */
  function Transition(t: Tables, now: nat, document: RawId<Uuid>, user: RawId<Uuid>, expected: Status,
                      next: Status, reason: Option<Reason>, chunkCount: Option<nat>): (Tables, bool)
  {
    if !Matches(t, document, user, expected) then (t, false)
    else
      var e := t[document.parsed.value];
      var row := e.row.(status := next, failureReason := reason, updatedAt := now,
                        chunkCount := if chunkCount.Some? then chunkCount.value else e.row.chunkCount);
      (t[document.parsed.value := e.(row := row)], true)
  }

  predicate Stale(row: Document, now: nat, staleAfter: nat) {
    row.status == Processing && !row.deleted && row.updatedAt + staleAfter < now
  }

  function FailIfStale(row: Document, now: nat, staleAfter: nat): Document {
    if Stale(row, now, staleAfter)
    then row.(status := Failed, failureReason := Some(StaleProcessing), updatedAt := now)
    else row
  }

  /** `fail_stale_processing`: the reaper's UPDATE over the whole table. */
  function FailStale(t: Tables, now: nat, staleAfter: nat): Tables {
    map d | d in t :: t[d].(row := FailIfStale(t[d].row, now, staleAfter))
  }

  /** `soft_delete_for_user`; `updated_at` is stamped by the column's own `onupdate`. */
  function SoftDelete(t: Tables, now: nat, document: RawId<Uuid>, user: RawId<Uuid>): (Tables, bool) {
    if !Owned(t, document, user) then (t, false)
    else
      var e := t[document.parsed.value];
      (t[document.parsed.value := e.(row := e.row.(deleted := true, updatedAt := now))], true)
  }

  // --- pages and chunks --------------------------------------------------------

  /** `add_for_user`; None where it raises: no owned document, or a page number already stored. */
  function AddPages(t: Tables, document: RawId<Uuid>, user: RawId<Uuid>, pages: seq<Page>): Option<Tables> {
    if !Owned(t, document, user) then None
    else
      var e := t[document.parsed.value];
      if exists i, j | 0 <= i < |e.pages| && 0 <= j < |pages| :: e.pages[i].number == pages[j].number
      then None
      else Some(t[document.parsed.value := e.(pages := e.pages + pages)])
  }

  function ListPages(t: Tables, document: RawId<Uuid>, user: RawId<Uuid>): seq<Page> {
    if Owned(t, document, user) then t[document.parsed.value].pages else []
  }

  function RowsFor(chunks: seq<Chunk>, version: Version, embedding: Option<Embedding>): (rows: seq<ChunkRow>)
    ensures |rows| == |chunks|
  {
    seq(|chunks|, i requires 0 <= i < |chunks| => ChunkRow(chunks[i], version, embedding))
  }

  /** `add_many`; None where it raises: no owned document, or an index already stored. */
  function AddChunks(t: Tables, document: RawId<Uuid>, user: RawId<Uuid>, chunks: seq<Chunk>, version: Version)
    : Option<Tables>
  {
    if !Owned(t, document, user) then None
    else
      var e := t[document.parsed.value];
      if exists i, j | 0 <= i < |e.chunks| && 0 <= j < |chunks| :: e.chunks[i].chunk.index == chunks[j].index
      then None
      else Some(t[document.parsed.value := e.(chunks := e.chunks + RowsFor(chunks, version, None))])
  }

  function ListChunks(t: Tables, document: RawId<Uuid>, user: RawId<Uuid>): seq<ChunkRow> {
    if Owned(t, document, user) then t[document.parsed.value].chunks else []
  }

  /** `provenance_for_document` */
  function Provenance(t: Tables, document: RawId<Uuid>, user: RawId<Uuid>): set<Version> {
    var rows := ListChunks(t, document, user);
    set i | 0 <= i < |rows| :: rows[i].version
  }

  function DeleteChunks(t: Tables, document: RawId<Uuid>, user: RawId<Uuid>): Tables {
    if Owned(t, document, user)
    then t[document.parsed.value := t[document.parsed.value].(chunks := [])]
    else t
  }

  function Marked(rows: seq<ChunkRow>, embedding: Embedding): (marked: seq<ChunkRow>)
    ensures |marked| == |rows|
  {
    seq(|rows|, i requires 0 <= i < |rows| => rows[i].(embedding := Some(embedding)))
  }

  /** `mark_embedded` */
  function MarkEmbedded(t: Tables, document: RawId<Uuid>, user: RawId<Uuid>, embedding: Embedding): Tables {
    if Owned(t, document, user)
    then
      var e := t[document.parsed.value];
      t[document.parsed.value := e.(chunks := Marked(e.chunks, embedding))]
    else t
  }
}
