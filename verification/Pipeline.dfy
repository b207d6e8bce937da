/**
 The ingestion pipeline as a step system over two stores.

 A state holds the tables, the points, the clock and every delivery of a job. A delivery is a program
 counter over the calls `IngestionService` makes; one step is one committed transaction, one read, or
 one call to storage, the extractor, the chunker, the embedder or the vector store. Between any two
 steps every other delivery, the reaper, a delete, an upload and the clock may act. What a call returns
 or raises is the step's `Choice`, so a list of events is one run with one set of faults.
 */
module Pipeline {
  import opened Identifiers
  import opened Text
  import opened Tables
  import opened VectorIndex

  /**
   The deterministic collaborators: what they return when they do not fail. `spelling` is how the jobs of a
   document write its id, where they all write it alike; no step reads it.
   */
  datatype Env = Env(extract: Hash -> seq<Page>,
                     chunk: (Version, seq<Page>) -> seq<Chunk>,
                     embed: (Embedding, string) -> Vector,
                     spelling: Uuid -> nat)

  /** The text the jobs of document `x` have for its id. */
  function Spelt(env: Env, x: Uuid): RawId<Uuid> {
    RawId(Some(x), env.spelling(x))
  }

  predicate SpellsAlike(env: Env, job: Job) {
    job.document.parsed.Some? ==> job.document == Spelt(env, job.document.parsed.value)
  }

  datatype Job = Job(document: RawId<Uuid>, owner: RawId<Uuid>, storageKey: StorageKey,
                     contentHash: Hash, mimeType: MimeType)

  /** What one worker process is configured to produce. */
  datatype Config = Config(version: Version, embedding: Embedding, maxPages: nat)

  datatype Stage = ParseStage | ChunkStage | EmbedStage

  function StartsAt(stage: Stage): Status {
    match stage
    case ParseStage => Pending
    case ChunkStage => Parsed
    case EmbedStage => Chunked
  }

  datatype Outcome =
    | WasRejected(reason: Reason) | SkippedInProgress | SkippedTerminal
    | WasParsed | WasChunked | BecameReady | HasFailed(reason: Reason) | ClaimLost

  /** How a delivery ended: what it returned or what it raised. */
  datatype Verdict =
    | Returned(outcome: Outcome)
    | RaisedTransient(stage: Stage, reason: Reason)
    | RaisedError
    | WasCancelled
    | WasKilled

  datatype Pc =
    | Begin
    | Claiming(stage: Stage)
    | Fetching
    | Extracting
    | StoringParsed(extracted: seq<Page>)
    | ReadingPages
    | MakingChunks(source: seq<Page>)
    | StoringChunks(made: seq<Text.Chunk>)
    | CheckingProvenance
    | ReadingPagesAgain
    | RemakingChunks(source: seq<Page>)
    | DeletingVectors(made: seq<Text.Chunk>)
    | ReplacingChunks(made: seq<Text.Chunk>)
    | ListingChunks
    | EmbeddingText(rows: seq<ChunkRow>)
    | Upserting(records: Points)
    | StoringReady
    | Failing(stage: Stage, reason: Reason)
    | Releasing(stage: Stage, reason: Reason)
    | Interrupted(stage: Stage)
    | GivingUp(tried: nat, claimed: bool)
    | CheckingProcessing
    | RecordingGivenUp(claimed: bool)
    | Done(verdict: Verdict)

  datatype Delivery = Delivery(job: Job, config: Config, finalAttempt: bool, startedAt: nat,
                               pageCount: Option<nat>, pc: Pc)

  datatype State = State(tables: Tables, points: Points, now: nat, deliveries: map<nat, Delivery>)

  const Empty: State := State(map[], map[], 0, map[])

  datatype ExtractionFailure = OpenFailed | Encrypted | TooManyPages | ParseFailed | TimedOut | Unavailable

  function ReasonOf(f: ExtractionFailure): Reason {
    match f
    case OpenFailed => PdfOpenFailed
    case Encrypted => PdfEncrypted
    case TooManyPages => PageLimitExceeded
    case ParseFailed => PdfParseFailed
    case TimedOut => PdfTimeout
    case Unavailable => ParserUnavailable
  }

  /**
   What the call of one step does. A choice the call cannot make means it succeeds. `took` is the part
   of a failed vector-store call that was applied before the call returned.
   */
  datatype Choice =
    | Succeeds
    | ReadsBytes(hash: Hash)
    | ObjectMissing
    | Unreadable
    | ExtractionFails(failure: ExtractionFailure)
    | EmbeddingFails
    | WrongWidth
    | StoreFails(took: set<ChunkId>)
    | Raises(took: set<ChunkId>)

  datatype Event =
    | Step(delivery: nat, choice: Choice)
    | Cancel(delivery: nat, took: set<ChunkId>)
    | Kill(delivery: nat, took: set<ChunkId>)
    | Deliver(delivery: nat, job: Job, config: Config, finalAttempt: bool)
    | Upload(document: Uuid, row: Document)
    | Delete(target: RawId<Uuid>, user: RawId<Uuid>)
    | Reap(staleAfter: nat)
    | Tick

  // --- pieces of IngestionService ---------------------------------------------

  function JobDisagreesWith(job: Job, row: Document): Option<Reason> {
    if Canonical(row.owner) != job.owner then Some(OwnershipMismatch)
    else if row.contentHash != Some(job.contentHash) then Some(ContentHashMismatch)
    else if row.storageKey != Some(job.storageKey) then Some(StorageKeyMismatch)
    else if row.mimeType != Some(job.mimeType) then Some(MimeTypeMismatch)
    else None
  }

  /** The checks `ingest` makes, and where they send the delivery. */
  function Admission(t: Tables, job: Job): Pc {
    var derived := StorageKeyFor(job.owner, job.contentHash);
    if derived.None? then Done(Returned(WasRejected(InvalidJob)))
    else if derived.value != job.storageKey then Done(Returned(WasRejected(StorageKeyMismatch)))
    else if !Owned(t, job.document, job.owner) then
      Done(Returned(WasRejected(if LiveDocumentExists(t, job.document) then OwnershipMismatch else DocumentNotFound)))
    else
      var row := t[job.document.parsed.value].row;
      var mismatch := JobDisagreesWith(job, row);
      if mismatch.Some? then Done(Returned(WasRejected(mismatch.value)))
      else match row.status
           case Processing => Done(Returned(SkippedInProgress))
           case Ready => Done(Returned(SkippedTerminal))
           case Failed => Done(Returned(SkippedTerminal))
           case Pending => Claiming(ParseStage)
           case Parsed => Claiming(ChunkStage)
           case Chunked => Claiming(EmbedStage)
  }

  /** `_transient` before its transaction: fail on a final attempt, release otherwise. */
  function Transient(d: Delivery, stage: Stage, reason: Reason): Pc {
    if d.finalAttempt then Failing(stage, reason) else Releasing(stage, reason)
  }

  /** An exception nothing in the service catches. The worker records it on a final attempt. */
  function Unclassified(d: Delivery): Pc {
    if d.finalAttempt then GivingUp(0, false) else Done(RaisedError)
  }

  /** Where a delivery is once its claim is committed. */
  function Entered(d: Delivery, stage: Stage): Pc {
    match stage
    case ParseStage =>
      if d.job.mimeType != Pdf then Failing(ParseStage, UnsupportedMimeType)
      else if d.pageCount.Some? && d.pageCount.value > d.config.maxPages then Failing(ParseStage, PageLimitExceeded)
      else Fetching
    case ChunkStage => ReadingPages
    case EmbedStage => CheckingProvenance
  }

  function PayloadFor(job: Job, config: Config, id: ChunkId, chunk: Text.Chunk): Payload {
    Payload(job.owner, job.document, Canonical(id), chunk.index, chunk.section, chunk.pageStart, chunk.pageEnd,
            config.version, config.embedding)
  }

  /** The record of one chunk row: its id, its vector and its payload. */
  function PointFor(env: Env, job: Job, config: Config, id: ChunkId, row: ChunkRow): Point {
    Point(env.embed(config.embedding, row.chunk.content), PayloadFor(job, config, id, row.chunk))
  }

  function RecordsFor(env: Env, job: Job, config: Config, document: Uuid, rows: seq<ChunkRow>): Points
    decreases |rows|
  {
    if rows == [] then map[]
    else
      var last := rows[|rows| - 1];
      var id := IdOf(document, last);
      RecordsFor(env, job, config, document, rows[..|rows| - 1])[id := PointFor(env, job, config, id, last)]
  }

  // --- transactions -------------------------------------------------------------

  datatype Transaction = Committed(tables: Tables) | NotMoved | RolledBack

  /** `_store_parsed` */
  function StoreParsed(t: Tables, now: nat, job: Job, pages: seq<Page>): Transaction {
    var (moved, ok) := Transition(t, now, job.document, job.owner, Processing, Parsed, None, None);
    if !ok then NotMoved
    else
      var added := AddPages(moved, job.document, job.owner, pages);
      if added.None? then RolledBack else Committed(added.value)
  }

  /** `_store_chunks` */
  function StoreChunks(t: Tables, now: nat, job: Job, config: Config, chunks: seq<Text.Chunk>): Transaction {
    var (moved, ok) := Transition(t, now, job.document, job.owner, Processing, Chunked, None, Some(|chunks|));
    if !ok then NotMoved
    else
      var added := AddChunks(moved, job.document, job.owner, chunks, config.version);
      if added.None? then RolledBack else Committed(added.value)
  }

  /** `_replace_chunks` */
  function ReplaceChunks(t: Tables, now: nat, job: Job, config: Config, chunks: seq<Text.Chunk>): Transaction {
    var (moved, ok) := Transition(t, now, job.document, job.owner, Processing, Processing, None, Some(|chunks|));
    if !ok then NotMoved
    else
      var cleared := DeleteChunks(moved, job.document, job.owner);
      var added := AddChunks(cleared, job.document, job.owner, chunks, config.version);
      if added.None? then RolledBack else Committed(added.value)
  }

  /** `_store_ready` */
  function StoreReady(t: Tables, now: nat, job: Job, config: Config): Transaction {
    var (moved, ok) := Transition(t, now, job.document, job.owner, Processing, Ready, None, None);
    if !ok then NotMoved else Committed(MarkEmbedded(moved, job.document, job.owner, config.embedding))
  }

  // --- one step of one delivery ----------------------------------------------------

  function At(s: State, w: nat, pc: Pc): State
    requires w in s.deliveries
  {
    s.(deliveries := s.deliveries[w := s.deliveries[w].(pc := pc)])
  }

  /** A compare-and-set of its own: `_transition`, then one of two places to go. */
  function Cas(s: State, w: nat, expected: Status, next: Status, reason: Option<Reason>, moved: Pc, lost: Pc): State
    requires w in s.deliveries
  {
    var job := s.deliveries[w].job;
    var (t, ok) := Transition(s.tables, s.now, job.document, job.owner, expected, next, reason, None);
    At(s.(tables := t), w, if ok then moved else lost)
  }

  function Settle(s: State, w: nat, tx: Transaction, committed: Pc, rolledBack: Pc): State
    requires w in s.deliveries
  {
    match tx
    case Committed(t) => At(s.(tables := t), w, committed)
    case NotMoved => At(s, w, Done(Returned(ClaimLost)))
    case RolledBack => At(s, w, rolledBack)
  }

  /** What an interrupted or failed vector-store call leaves behind. */
  function PartialEffect(points: Points, d: Delivery, took: set<ChunkId>): Points {
    match d.pc
    case Upserting(records) => points + Part(records, took)
    case DeletingVectors(_) =>
      points - Part(points - WithoutDocument(points, d.job.document, d.job.owner).Keys, took).Keys
    case _ => points
  }

  function ParseStep(env: Env, s: State, w: nat, choice: Choice): State
    requires w in s.deliveries
  {
    var d := s.deliveries[w];
    match d.pc
    case Fetching =>
      (match choice
       case ObjectMissing => At(s, w, Failing(ParseStage, StorageMissing))
       case Unreadable => At(s, w, Transient(d, ParseStage, StorageReadFailure))
       case Raises(_) => At(s, w, Transient(d, ParseStage, ProcessingFailure))
       case ReadsBytes(hash) =>
         At(s, w, if hash != d.job.contentHash then Failing(ParseStage, ContentHashMismatch) else Extracting)
       case _ => At(s, w, Extracting))
    case Extracting =>
      (match choice
       case ExtractionFails(f) =>
         At(s, w, if f == Unavailable then Transient(d, ParseStage, ReasonOf(f)) else Failing(ParseStage, ReasonOf(f)))
       case Raises(_) => At(s, w, Transient(d, ParseStage, ProcessingFailure))
       case _ =>
         var pages := env.extract(d.job.contentHash);
         if d.pageCount.Some? && |pages| != d.pageCount.value then At(s, w, Failing(ParseStage, PageCountMismatch))
         else if !HasText(pages) then At(s, w, Failing(ParseStage, NoExtractableText))
         else At(s, w, StoringParsed(pages)))
    case StoringParsed(pages) =>
      if choice.Raises? then At(s, w, Transient(d, ParseStage, ProcessingFailure))
      else Settle(s, w, StoreParsed(s.tables, s.now, d.job, pages), Claiming(ChunkStage),
                  Transient(d, ParseStage, ProcessingFailure))
    case _ => s
  }

  function ChunkStep(env: Env, s: State, w: nat, choice: Choice): State
    requires w in s.deliveries
  {
    var d := s.deliveries[w];
    match d.pc
    case ReadingPages =>
      if choice.Raises? then At(s, w, Unclassified(d))
      else
        var pages := ListPages(s.tables, d.job.document, d.job.owner);
        At(s, w, if pages == [] then Failing(ChunkStage, NoExtractedPages) else MakingChunks(pages))
    case MakingChunks(pages) =>
      if choice.Raises? then At(s, w, Transient(d, ChunkStage, ChunkingFailure))
      else
        var chunks := env.chunk(d.config.version, pages);
        At(s, w, if chunks == [] then Failing(ChunkStage, NoChunksProduced) else StoringChunks(chunks))
    case StoringChunks(chunks) =>
      if choice.Raises? then At(s, w, Transient(d, ChunkStage, ChunkingFailure))
      else Settle(s, w, StoreChunks(s.tables, s.now, d.job, d.config, chunks), Claiming(EmbedStage),
                  Transient(d, ChunkStage, ChunkingFailure))
    case _ => s
  }

  function RechunkStep(env: Env, s: State, w: nat, choice: Choice): State
    requires w in s.deliveries
  {
    var d := s.deliveries[w];
    match d.pc
    case ReadingPagesAgain =>
      if choice.Raises? then At(s, w, Unclassified(d))
      else
        var pages := ListPages(s.tables, d.job.document, d.job.owner);
        At(s, w, if pages == [] then Failing(EmbedStage, NoChunksToEmbed) else RemakingChunks(pages))
    case RemakingChunks(pages) =>
      if choice.Raises? then At(s, w, Transient(d, EmbedStage, ChunkingFailure))
      else
        var chunks := env.chunk(d.config.version, pages);
        At(s, w, if chunks == [] then Failing(EmbedStage, NoChunksProduced) else DeletingVectors(chunks))
    case DeletingVectors(chunks) =>
      (match choice
       case StoreFails(took) =>
         At(s.(points := PartialEffect(s.points, d, took)), w, Transient(d, EmbedStage, VectorStoreFailure))
       case Raises(took) => At(s.(points := PartialEffect(s.points, d, took)), w, Unclassified(d))
       case _ =>
         At(s.(points := WithoutDocument(s.points, d.job.document, d.job.owner)), w, ReplacingChunks(chunks)))
    case ReplacingChunks(chunks) =>
      if choice.Raises? then At(s, w, Transient(d, EmbedStage, ChunkingFailure))
      else Settle(s, w, ReplaceChunks(s.tables, s.now, d.job, d.config, chunks), ListingChunks,
                  Transient(d, EmbedStage, ChunkingFailure))
    case _ => s
  }

  function EmbedStep(env: Env, s: State, w: nat, choice: Choice): State
    requires w in s.deliveries
  {
    var d := s.deliveries[w];
    match d.pc
    case CheckingProvenance =>
      if choice.Raises? then At(s, w, Unclassified(d))
      else
        var provenance := Provenance(s.tables, d.job.document, d.job.owner);
        At(s, w, if provenance == {} then Failing(EmbedStage, NoChunksToEmbed)
                 else if provenance != {d.config.version} then ReadingPagesAgain
                 else ListingChunks)
    case ListingChunks =>
      if choice.Raises? then At(s, w, Unclassified(d))
      else
        var rows := ListChunks(s.tables, d.job.document, d.job.owner);
        At(s, w, if rows == [] then Failing(EmbedStage, NoChunksToEmbed) else EmbeddingText(rows))
    case EmbeddingText(rows) =>
      (match choice
       case EmbeddingFails => At(s, w, Transient(d, EmbedStage, EmbeddingFailure))
       case Raises(_) => At(s, w, Unclassified(d))
       case WrongWidth => At(s, w, Failing(EmbedStage, EmbeddingDimensionMismatch))
       case _ =>
         if d.job.document.parsed.None? then s
         else At(s, w, Upserting(RecordsFor(env, d.job, d.config, d.job.document.parsed.value, rows))))
    case Upserting(records) =>
      (match choice
       case StoreFails(took) =>
         At(s.(points := PartialEffect(s.points, d, took)), w, Transient(d, EmbedStage, VectorStoreFailure))
       case Raises(took) => At(s.(points := PartialEffect(s.points, d, took)), w, Unclassified(d))
       case _ => At(s.(points := s.points + records), w, StoringReady))
    case StoringReady =>
      if choice.Raises? then At(s, w, Transient(d, EmbedStage, ProcessingFailure))
      else Settle(s, w, StoreReady(s.tables, s.now, d.job, d.config), Done(Returned(BecameReady)),
                  Transient(d, EmbedStage, ProcessingFailure))
    case _ => s
  }

  /** `_run`'s claim, `_fail`, `_transient` and `_release_after_interruption`: one compare-and-set each. */
  function ClaimStep(s: State, w: nat, choice: Choice): State
    requires w in s.deliveries
  {
    var d := s.deliveries[w];
    match d.pc
    case Begin =>
      var pc := Admission(s.tables, d.job);
      if choice.Raises? && StorageKeyFor(d.job.owner, d.job.contentHash) == Some(d.job.storageKey)
      then At(s, w, Unclassified(d))
      else
        var pages := if pc.Claiming? && Owned(s.tables, d.job.document, d.job.owner)
                     then s.tables[d.job.document.parsed.value].row.pageCount else None;
        s.(deliveries := s.deliveries[w := d.(pc := pc, pageCount := pages)])
    case Claiming(stage) =>
      if choice.Raises? then At(s, w, Unclassified(d))
      else Cas(s, w, StartsAt(stage), Processing, None, Entered(d, stage), Done(Returned(SkippedInProgress)))
    case Failing(stage, reason) =>
      if choice.Raises? then At(s, w, Unclassified(d))
      else Cas(s, w, Processing, Failed, Some(reason), Done(Returned(HasFailed(reason))), Done(Returned(ClaimLost)))
    case Releasing(stage, reason) =>
      if choice.Raises? then At(s, w, Unclassified(d))
      else Cas(s, w, Processing, StartsAt(stage), None, Done(RaisedTransient(stage, reason)), Done(Returned(ClaimLost)))
    case Interrupted(stage) =>
      if choice.Raises? then At(s, w, Done(WasCancelled))
      else Cas(s, w, Processing, StartsAt(stage), None, Done(WasCancelled), Done(WasCancelled))
    case _ => s
  }

  /** The status `record_given_up` tries to claim from, in the order of RECOVERABLE_STATUSES. */
  function Recoverable(tried: nat): Status {
    if tried == 0 then Pending else if tried == 1 then Parsed else Chunked
  }

  /** `record_given_up` */
  function GiveUpStep(s: State, w: nat, choice: Choice): State
    requires w in s.deliveries
  {
    var d := s.deliveries[w];
    if choice.Raises? then At(s, w, Done(RaisedError))
    else
      match d.pc
      case GivingUp(tried, claimed) =>
        var after := (c: bool) =>
          if tried < 2 then GivingUp(tried + 1, c) else if c then RecordingGivenUp(true) else CheckingProcessing;
        Cas(s, w, Recoverable(tried), Processing, None, after(true), after(claimed))
      case CheckingProcessing =>
        At(s, w, if Matches(s.tables, d.job.document, d.job.owner, Processing) then RecordingGivenUp(false)
                 else Done(RaisedError))
      case RecordingGivenUp(_) =>
        Cas(s, w, Processing, Failed, Some(ProcessingFailure), Done(RaisedError), Done(RaisedError))
      case _ => s
  }

  function StepDelivery(env: Env, s: State, w: nat, choice: Choice): State
    requires w in s.deliveries
  {
    var pc := s.deliveries[w].pc;
    match pc
    case Fetching | Extracting | StoringParsed(_) => ParseStep(env, s, w, choice)
    case ReadingPages | MakingChunks(_) | StoringChunks(_) => ChunkStep(env, s, w, choice)
    case ReadingPagesAgain | RemakingChunks(_) | DeletingVectors(_) | ReplacingChunks(_) =>
      RechunkStep(env, s, w, choice)
    case CheckingProvenance | ListingChunks | EmbeddingText(_) | Upserting(_) | StoringReady =>
      EmbedStep(env, s, w, choice)
    case GivingUp(_, _) | CheckingProcessing | RecordingGivenUp(_) => GiveUpStep(s, w, choice)
    case Begin | Claiming(_) | Failing(_, _) | Releasing(_, _) | Interrupted(_) => ClaimStep(s, w, choice)
    case Done(_) => s
  }

  // --- the stage a delivery is inside ---------------------------------------------

  /** The stage whose claim a delivery holds, or believes it holds. */
  function HeldStage(pc: Pc): Option<Stage> {
    match pc
    case Fetching | Extracting | StoringParsed(_) => Some(ParseStage)
    case ReadingPages | MakingChunks(_) | StoringChunks(_) => Some(ChunkStage)
    case CheckingProvenance | ReadingPagesAgain | RemakingChunks(_) | DeletingVectors(_) | ReplacingChunks(_) => Some(EmbedStage)
    case ListingChunks | EmbeddingText(_) | Upserting(_) | StoringReady => Some(EmbedStage)
    case Failing(stage, _) => Some(stage)
    case Releasing(stage, _) => Some(stage)
    case Interrupted(stage) => Some(stage)
    case _ => None
  }

  /** Inside a claimed section: a stage, or the given-up recorder's own claim. */
  predicate Holds(pc: Pc) {
    HeldStage(pc).Some? || (pc.GivingUp? && pc.claimed) || (pc.RecordingGivenUp? && pc.claimed)
  }

  // --- events --------------------------------------------------------------------------

  /** `asyncio.CancelledError` at the current call: `_run` releases the claim, if it holds one. */
  function CancelDelivery(s: State, w: nat, took: set<ChunkId>): State
    requires w in s.deliveries
  {
    var d := s.deliveries[w];
    var held := HeldStage(d.pc);
    if d.pc.Done? then s
    else At(s.(points := PartialEffect(s.points, d, took)), w,
            if held.Some? then Interrupted(held.value) else Done(WasCancelled))
  }

  /** The process dies at the current call. Whatever it had claimed stays claimed. */
  function KillDelivery(s: State, w: nat, took: set<ChunkId>): State
    requires w in s.deliveries
  {
    var d := s.deliveries[w];
    if d.pc.Done? then s
    else At(s.(points := PartialEffect(s.points, d, took)), w, Done(WasKilled))
  }

  predicate NewRow(row: Document, now: nat) {
    && row.status == Pending && row.failureReason == None && row.chunkCount == 0
    && !row.deleted && row.updatedAt == now
  }

  function Apply(env: Env, s: State, e: Event): State {
    match e
    case Step(w, choice) => if w in s.deliveries then StepDelivery(env, s, w, choice) else s
    case Cancel(w, took) => if w in s.deliveries then CancelDelivery(s, w, took) else s
    case Kill(w, took) => if w in s.deliveries then KillDelivery(s, w, took) else s
    case Deliver(w, job, config, finalAttempt) =>
      if w in s.deliveries then s
      else s.(deliveries := s.deliveries[w := Delivery(job, config, finalAttempt, s.now, None, Begin)])
    case Upload(document, row) =>
      var t := s.tables[document := Entry(row, [], [])];
      if document in s.tables || !NewRow(row, s.now) || !UniqueContent(t) then s else s.(tables := t)
    case Delete(target, user) => s.(tables := SoftDelete(s.tables, s.now, target, user).0)
    case Reap(staleAfter) => s.(tables := FailStale(s.tables, s.now, staleAfter))
    case Tick => s.(now := s.now + 1)
  }

  /** The state after a list of events. */
  function Run(env: Env, s: State, events: seq<Event>): State
    decreases |events|
  {
    if events == [] then s else Apply(env, Run(env, s, events[..|events| - 1]), events[|events| - 1])
  }
}
