/** Each step of the service, one call at a time: what it leaves in the stores, and where it goes. */
module ServiceSteps {
  import opened Identifiers
  import opened Text
  import opened Tables
  import opened VectorIndex
  import opened Pipeline
  import opened Worlds

  /** One step of `w` changes no store and goes to `pc`. */
  ghost predicate Passes(env: Env, s: State, w: nat, choice: Choice, pc: Pc) {
    w in s.deliveries && Goes(env, s, w, choice, s.tables, s.points, s.deliveries[w].(pc := pc))
  }

  /** One step of `w` is a compare-and-set of its own. */
  ghost predicate Sets(env: Env, s: State, w: nat, choice: Choice, expected: Status, next: Status,
                       reason: Option<Reason>, moved: Pc, lost: Pc)
  {
    && w in s.deliveries
    && var job := s.deliveries[w].job;
    && var (t, matched) := Transition(s.tables, s.now, job.document, job.owner, expected, next, reason, None);
    && Goes(env, s, w, choice, t, s.points, s.deliveries[w].(pc := if matched then moved else lost))
  }

  /** It may also be rolled back, and raise. */
  ghost predicate MayCas(env: Env, s: State, w: nat, choice: Choice, expected: Status, next: Status,
                         reason: Option<Reason>, moved: Pc, lost: Pc, failed: Pc)
  {
    if choice.Raises? then Passes(env, s, w, choice, failed)
    else Sets(env, s, w, choice, expected, next, reason, moved, lost)
  }

  lemma CasGoes(env: Env, s: State, w: nat, choice: Choice, expected: Status, next: Status, reason: Option<Reason>,
                moved: Pc, lost: Pc, failed: Pc)
    requires MayCas(env, s, w, choice, expected, next, reason, moved, lost, failed)
    ensures w in s.deliveries
    ensures var d := s.deliveries[w];
            && (choice.Raises? ==> Goes(env, s, w, choice, s.tables, s.points, d.(pc := failed)))
            && (!choice.Raises? ==>
                  var (t, matched) := Transition(s.tables, s.now, d.job.document, d.job.owner, expected, next, reason, None);
                  Goes(env, s, w, choice, t, s.points, d.(pc := if matched then moved else lost)))
  {
    hide Goes, Transition;
  }

  /** Where a transaction takes delivery `d`. */
  function AfterTransaction(tx: Transaction, committed: Pc, rolledBack: Pc): Pc {
    match tx
    case Committed(_) => committed
    case NotMoved => Done(Returned(ClaimLost))
    case RolledBack => rolledBack
  }

  /** One step of `w` is this transaction. */
  ghost predicate Settles(env: Env, s: State, w: nat, choice: Choice, tx: Transaction, committed: Pc, rolledBack: Pc) {
    && w in s.deliveries
    && Goes(env, s, w, choice, if tx.Committed? then tx.tables else s.tables, s.points,
            s.deliveries[w].(pc := AfterTransaction(tx, committed, rolledBack)))
  }

  /** It may also be rolled back by an exception. */
  ghost predicate MaySettle(env: Env, s: State, w: nat, choice: Choice, tx: Transaction, committed: Pc, rolledBack: Pc) {
    if choice.Raises? then Passes(env, s, w, choice, rolledBack)
    else Settles(env, s, w, choice, tx, committed, rolledBack)
  }

  lemma Claims(env: Env, s: State, w: nat, choice: Choice, stage: Stage)
    requires w in s.deliveries && s.deliveries[w].pc == Claiming(stage)
    ensures MayCas(env, s, w, choice, StartsAt(stage), Processing, None, Entered(s.deliveries[w], stage),
                   Done(Returned(SkippedInProgress)), Unclassified(s.deliveries[w]))
  {
    hide Transition, Entered, Unclassified;
  }

  lemma Fails(env: Env, s: State, w: nat, choice: Choice, stage: Stage, reason: Reason)
    requires w in s.deliveries && s.deliveries[w].pc == Failing(stage, reason)
    ensures MayCas(env, s, w, choice, Processing, Failed, Some(reason), Done(Returned(HasFailed(reason))),
                   Done(Returned(ClaimLost)), Unclassified(s.deliveries[w]))
  {
    hide Transition, Unclassified;
  }

  lemma Releases(env: Env, s: State, w: nat, choice: Choice, stage: Stage, reason: Reason)
    requires w in s.deliveries && s.deliveries[w].pc == Releasing(stage, reason)
    ensures MayCas(env, s, w, choice, Processing, StartsAt(stage), None, Done(RaisedTransient(stage, reason)),
                   Done(Returned(ClaimLost)), Unclassified(s.deliveries[w]))
  {
    hide Transition, Unclassified;
  }

  lemma ReleasesInterrupted(env: Env, s: State, w: nat, choice: Choice, stage: Stage)
    requires w in s.deliveries && s.deliveries[w].pc == Interrupted(stage)
    ensures MayCas(env, s, w, choice, Processing, StartsAt(stage), None, Done(WasCancelled), Done(WasCancelled), Done(WasCancelled))
  {
    hide Transition;
  }

  /** `ingest` up to its first claim. */
  lemma Begins(env: Env, s: State, w: nat, choice: Choice)
    requires w in s.deliveries && s.deliveries[w].pc == Begin
    ensures var d := s.deliveries[w];
            var derived := StorageKeyFor(d.job.owner, d.job.contentHash) == Some(d.job.storageKey);
            var pc := Admission(s.tables, d.job);
            && (choice.Raises? && derived ==> Passes(env, s, w, choice, Unclassified(d)))
            && (!choice.Raises? || !derived ==>
                  Goes(env, s, w, choice, s.tables, s.points,
                       d.(pc := pc, pageCount := if pc.Claiming? && Owned(s.tables, d.job.document, d.job.owner)
                                                 then s.tables[d.job.document.parsed.value].row.pageCount else None)))
  {
    hide Admission, Unclassified;
  }

  // --- parsing ------------------------------------------------------------------------

  lemma Fetches(env: Env, s: State, w: nat, choice: Choice)
    requires w in s.deliveries && s.deliveries[w].pc == Fetching
    ensures var d := s.deliveries[w];
            Passes(env, s, w, choice,
                   match choice
                   case ObjectMissing => Failing(ParseStage, StorageMissing)
                   case Unreadable => Transient(d, ParseStage, StorageReadFailure)
                   case Raises(_) => Transient(d, ParseStage, ProcessingFailure)
                   case ReadsBytes(hash) =>
                     if hash != d.job.contentHash then Failing(ParseStage, ContentHashMismatch) else Extracting
                   case _ => Extracting)
  {
    hide Transient;
  }

  lemma Extracts(env: Env, s: State, w: nat, choice: Choice)
    requires w in s.deliveries && s.deliveries[w].pc == Extracting
    ensures var d := s.deliveries[w];
            Passes(env, s, w, choice,
                   match choice
                   case ExtractionFails(f) =>
                     if f == Unavailable then Transient(d, ParseStage, ReasonOf(f)) else Failing(ParseStage, ReasonOf(f))
                   case Raises(_) => Transient(d, ParseStage, ProcessingFailure)
                   case _ =>
                     var pages := env.extract(d.job.contentHash);
                     if d.pageCount.Some? && |pages| != d.pageCount.value then Failing(ParseStage, PageCountMismatch)
                     else if !HasText(pages) then Failing(ParseStage, NoExtractableText)
                     else StoringParsed(pages))
  {
    hide Transient, ReasonOf, HasText;
  }

  lemma StoresParsed(env: Env, s: State, w: nat, choice: Choice, pages: seq<Page>)
    requires w in s.deliveries && s.deliveries[w].pc == StoringParsed(pages)
    ensures var d := s.deliveries[w];
            MaySettle(env, s, w, choice, StoreParsed(s.tables, s.now, d.job, pages), Claiming(ChunkStage),
                      Transient(d, ParseStage, ProcessingFailure))
  {
    hide Transient, StoreParsed;
  }

  // --- chunking ------------------------------------------------------------------------

  lemma ReadsPages(env: Env, s: State, w: nat, choice: Choice)
    requires w in s.deliveries && s.deliveries[w].pc == ReadingPages
    ensures var d := s.deliveries[w];
            var pages := ListPages(s.tables, d.job.document, d.job.owner);
            Passes(env, s, w, choice,
                   if choice.Raises? then Unclassified(d)
                   else if pages == [] then Failing(ChunkStage, NoExtractedPages) else MakingChunks(pages))
  {
    hide Unclassified, ListPages;
  }

  lemma MakesChunks(env: Env, s: State, w: nat, choice: Choice, pages: seq<Page>)
    requires w in s.deliveries && s.deliveries[w].pc == MakingChunks(pages)
    ensures var d := s.deliveries[w];
            var chunks := env.chunk(d.config.version, pages);
            Passes(env, s, w, choice,
                   if choice.Raises? then Transient(d, ChunkStage, ChunkingFailure)
                   else if chunks == [] then Failing(ChunkStage, NoChunksProduced) else StoringChunks(chunks))
  {
    hide Transient;
  }

  lemma StoresChunks(env: Env, s: State, w: nat, choice: Choice, chunks: seq<Text.Chunk>)
    requires w in s.deliveries && s.deliveries[w].pc == StoringChunks(chunks)
    ensures var d := s.deliveries[w];
            MaySettle(env, s, w, choice, StoreChunks(s.tables, s.now, d.job, d.config, chunks), Claiming(EmbedStage),
                      Transient(d, ChunkStage, ChunkingFailure))
  {
    hide Transient, StoreChunks;
  }

  // --- re-chunking -----------------------------------------------------------------------

  lemma ReadsPagesAgain(env: Env, s: State, w: nat, choice: Choice)
    requires w in s.deliveries && s.deliveries[w].pc == ReadingPagesAgain
    ensures var d := s.deliveries[w];
            var pages := ListPages(s.tables, d.job.document, d.job.owner);
            Passes(env, s, w, choice,
                   if choice.Raises? then Unclassified(d)
                   else if pages == [] then Failing(EmbedStage, NoChunksToEmbed) else RemakingChunks(pages))
  {
    hide Unclassified, ListPages;
  }

  lemma RemakesChunks(env: Env, s: State, w: nat, choice: Choice, pages: seq<Page>)
    requires w in s.deliveries && s.deliveries[w].pc == RemakingChunks(pages)
    ensures var d := s.deliveries[w];
            var chunks := env.chunk(d.config.version, pages);
            Passes(env, s, w, choice,
                   if choice.Raises? then Transient(d, EmbedStage, ChunkingFailure)
                   else if chunks == [] then Failing(EmbedStage, NoChunksProduced) else DeletingVectors(chunks))
  {
    hide Transient;
  }

  lemma DeletesVectors(env: Env, s: State, w: nat, choice: Choice, chunks: seq<Text.Chunk>)
    requires w in s.deliveries && s.deliveries[w].pc == DeletingVectors(chunks)
    ensures var d := s.deliveries[w];
            && (choice.StoreFails? ==>
                  Goes(env, s, w, choice, s.tables, PartialEffect(s.points, d, choice.took),
                       d.(pc := Transient(d, EmbedStage, VectorStoreFailure))))
            && (choice.Raises? ==>
                  Goes(env, s, w, choice, s.tables, PartialEffect(s.points, d, choice.took), d.(pc := Unclassified(d))))
            && (!choice.StoreFails? && !choice.Raises? ==>
                  Goes(env, s, w, choice, s.tables, WithoutDocument(s.points, d.job.document, d.job.owner),
                       d.(pc := ReplacingChunks(chunks))))
  {
    hide Transient, Unclassified, PartialEffect, WithoutDocument;
  }

  lemma ReplacesChunks(env: Env, s: State, w: nat, choice: Choice, chunks: seq<Text.Chunk>)
    requires w in s.deliveries && s.deliveries[w].pc == ReplacingChunks(chunks)
    ensures var d := s.deliveries[w];
            MaySettle(env, s, w, choice, ReplaceChunks(s.tables, s.now, d.job, d.config, chunks), ListingChunks,
                      Transient(d, EmbedStage, ChunkingFailure))
  {
    hide Transient, ReplaceChunks;
  }

  // --- embedding -----------------------------------------------------------------------------

  lemma ChecksProvenance(env: Env, s: State, w: nat, choice: Choice)
    requires w in s.deliveries && s.deliveries[w].pc == CheckingProvenance
    ensures var d := s.deliveries[w];
            var provenance := Provenance(s.tables, d.job.document, d.job.owner);
            Passes(env, s, w, choice,
                   if choice.Raises? then Unclassified(d)
                   else if provenance == {} then Failing(EmbedStage, NoChunksToEmbed)
                   else if provenance != {d.config.version} then ReadingPagesAgain
                   else ListingChunks)
  {
    hide Unclassified, Provenance;
  }

  lemma ListsChunks(env: Env, s: State, w: nat, choice: Choice)
    requires w in s.deliveries && s.deliveries[w].pc == ListingChunks
    ensures var d := s.deliveries[w];
            var rows := ListChunks(s.tables, d.job.document, d.job.owner);
            Passes(env, s, w, choice,
                   if choice.Raises? then Unclassified(d)
                   else if rows == [] then Failing(EmbedStage, NoChunksToEmbed) else EmbeddingText(rows))
  {
    hide Unclassified, ListChunks;
  }

  lemma {:induction false} Embeds(env: Env, s: State, w: nat, choice: Choice, rows: seq<ChunkRow>)
    requires w in s.deliveries && s.deliveries[w].pc == EmbeddingText(rows)
    requires s.deliveries[w].job.document.parsed.Some?
    ensures var d := s.deliveries[w];
            Passes(env, s, w, choice,
                   match choice
                   case EmbeddingFails => Transient(d, EmbedStage, EmbeddingFailure)
                   case Raises(_) => Unclassified(d)
                   case WrongWidth => Failing(EmbedStage, EmbeddingDimensionMismatch)
                   case _ => Upserting(RecordsFor(env, d.job, d.config, d.job.document.parsed.value, rows)))
  {
    hide Transient, Unclassified, RecordsFor;
  }

  lemma Upserts(env: Env, s: State, w: nat, choice: Choice, records: Points)
    requires w in s.deliveries && s.deliveries[w].pc == Upserting(records)
    ensures var d := s.deliveries[w];
            && (choice.StoreFails? ==>
                  Goes(env, s, w, choice, s.tables, PartialEffect(s.points, d, choice.took),
                       d.(pc := Transient(d, EmbedStage, VectorStoreFailure))))
            && (choice.Raises? ==>
                  Goes(env, s, w, choice, s.tables, PartialEffect(s.points, d, choice.took), d.(pc := Unclassified(d))))
            && (!choice.StoreFails? && !choice.Raises? ==>
                  Goes(env, s, w, choice, s.tables, s.points + records, d.(pc := StoringReady)))
  {
    hide Transient, Unclassified, PartialEffect;
  }

  lemma StoresReady(env: Env, s: State, w: nat, choice: Choice)
    requires w in s.deliveries && s.deliveries[w].pc == StoringReady
    ensures var d := s.deliveries[w];
            MaySettle(env, s, w, choice, StoreReady(s.tables, s.now, d.job, d.config), Done(Returned(BecameReady)),
                      Transient(d, EmbedStage, ProcessingFailure))
  {
    hide Transient, StoreReady;
  }

  // --- giving up -------------------------------------------------------------------------------

  /** Where the recorder goes after its compare-and-set from one recoverable status. */
  function AfterTry(tried: nat, claimed: bool): Pc {
    if tried < 2 then GivingUp(tried + 1, claimed) else if claimed then RecordingGivenUp(true) else CheckingProcessing
  }

  lemma GivesUp(env: Env, s: State, w: nat, choice: Choice, tried: nat, claimed: bool)
    requires w in s.deliveries && s.deliveries[w].pc == GivingUp(tried, claimed)
    ensures MayCas(env, s, w, choice, Recoverable(tried), Processing, None, AfterTry(tried, true),
                   AfterTry(tried, claimed), Done(RaisedError))
  {
    hide Transition;
  }

  lemma ChecksProcessing(env: Env, s: State, w: nat, choice: Choice)
    requires w in s.deliveries && s.deliveries[w].pc == CheckingProcessing
    ensures var d := s.deliveries[w];
            Passes(env, s, w, choice,
                   if !choice.Raises? && Matches(s.tables, d.job.document, d.job.owner, Processing)
                   then RecordingGivenUp(false) else Done(RaisedError))
  {
    hide Matches;
  }

  lemma RecordsGivenUp(env: Env, s: State, w: nat, choice: Choice, claimed: bool)
    requires w in s.deliveries && s.deliveries[w].pc == RecordingGivenUp(claimed)
    ensures MayCas(env, s, w, choice, Processing, Failed, Some(ProcessingFailure), Done(RaisedError), Done(RaisedError), Done(RaisedError))
  {
    hide Transition;
  }
}
