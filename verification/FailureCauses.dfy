/** Why documents fail: a reason recorded on a row is true of the document. */
module FailureCauses {
  import opened Identifiers
  import opened Text
  import opened Tables
  import opened VectorIndex
  import opened Pipeline
  import opened PipelineInvariant
  import opened PipelineSteps
  import opened PipelineSafety
  import opened PipelineProgress
  import opened PipelineAlone
  import opened PipelineTheorems

  /**
   What a reason says of its document, where it says something the columns and the collaborators decide: the
   extraction has no block on any page, or another number of pages than the upload counted; the type is not
   PDF; some version's chunker makes nothing of the pages. No row fails for what is wrong with a job, and none
   for pages or chunks that went missing.
   */
  ghost predicate Cause(env: Env, row: Document, reason: Reason) {
    match reason
    case NoExtractableText =>
      && row.contentHash.Some?
      && forall i | 0 <= i < |env.extract(row.contentHash.value)| :: env.extract(row.contentHash.value)[i].blocks == []
    case PageCountMismatch =>
      && row.contentHash.Some? && row.pageCount.Some?
      && |env.extract(row.contentHash.value)| != row.pageCount.value
    case UnsupportedMimeType => row.mimeType != Some(Pdf)
    case NoChunksProduced =>
      && row.contentHash.Some?
      && exists version :: env.chunk(version, env.extract(row.contentHash.value)) == []
    case InvalidJob => false
    case DocumentNotFound => false
    case OwnershipMismatch => false
    case StorageKeyMismatch => false
    case MimeTypeMismatch => false
    case NoExtractedPages => false
    case NoChunksToEmbed => false
    case _ => true
  }

  ghost predicate CauseOn(env: Env, t: Tables, d: Delivery, reason: Reason) {
    && d.job.document.parsed.Some? && d.job.document.parsed.value in t
    && (t[d.job.document.parsed.value].row.deleted || Cause(env, t[d.job.document.parsed.value].row, reason))
  }

  ghost predicate RowsExplained(env: Env, t: Tables) {
    forall x | x in t && t[x].row.failureReason.Some? :: Cause(env, t[x].row, t[x].row.failureReason.value)
  }

  ghost predicate DeliveryExplained(env: Env, t: Tables, d: Delivery) {
    d.pc.Failing? ==> CauseOn(env, t, d, d.pc.reason)
  }

  ghost predicate Explained(env: Env, s: State) {
    RowsExplained(env, s.tables) && forall w | w in s.deliveries :: DeliveryExplained(env, s.tables, s.deliveries[w])
  }

  // --- the tables -----------------------------------------------------------------------

  lemma SameCause(env: Env, a: Document, b: Document, reason: Reason)
    requires SameColumns(a, b) && Cause(env, a, reason)
    ensures Cause(env, b, reason)
  {
  }

  lemma TransactionsExplain(env: Env, t: Tables, now: nat, job: Job, config: Config, pages: seq<Page>,
                            chunks: seq<Text.Chunk>)
    requires RowsExplained(env, t)
    ensures StoreParsed(t, now, job, pages).Committed? ==> RowsExplained(env, StoreParsed(t, now, job, pages).tables)
    ensures StoreChunks(t, now, job, config, chunks).Committed? ==>
              RowsExplained(env, StoreChunks(t, now, job, config, chunks).tables)
    ensures ReplaceChunks(t, now, job, config, chunks).Committed? ==>
              RowsExplained(env, ReplaceChunks(t, now, job, config, chunks).tables)
    ensures StoreReady(t, now, job, config).Committed? ==> RowsExplained(env, StoreReady(t, now, job, config).tables)
  {
    hide Cause;
  }

  /** A compare-and-set that writes no reason, or one with its cause. */
  lemma CasExplains(env: Env, s: State, w: nat, expected: Status, next: Status, reason: Option<Reason>, moved: Pc, lost: Pc)
    requires w in s.deliveries && RowsExplained(env, s.tables)
    requires reason.Some? ==> CauseOn(env, s.tables, s.deliveries[w], reason.value)
    requires !moved.Failing? && !lost.Failing?
    ensures var r := Cas(s, w, expected, next, reason, moved, lost);
            RowsExplained(env, r.tables) && w in r.deliveries && DeliveryExplained(env, r.tables, r.deliveries[w])
  {
    hide Cause;
    var job := s.deliveries[w].job;
    var t := Transition(s.tables, s.now, job.document, job.owner, expected, next, reason, None).0;
    forall x | x in t && t[x].row.failureReason.Some?
      ensures Cause(env, t[x].row, t[x].row.failureReason.value)
    {
      if t[x] != s.tables[x] {
        SameCause(env, s.tables[x].row, t[x].row, reason.value);
      }
    }
  }

  /** Where a delivery may go without an explanation, or has one. */
  ghost predicate Owed(env: Env, t: Tables, d: Delivery, pc: Pc) {
    pc.Failing? ==> CauseOn(env, t, d, pc.reason)
  }

  ghost predicate WellMoved(env: Env, r: State, w: nat) {
    RowsExplained(env, r.tables) && w in r.deliveries && DeliveryExplained(env, r.tables, r.deliveries[w])
  }

  lemma MovingExplains(env: Env, s: State, w: nat)
    requires w in s.deliveries && RowsExplained(env, s.tables)
    ensures forall r: State, pc: Pc
              | r.deliveries == s.deliveries && r.tables == s.tables && Owed(env, s.tables, s.deliveries[w], pc) ::
              WellMoved(env, At(r, w, pc), w)
  {
    hide Cause, RowsExplained;
  }

  // --- the steps -------------------------------------------------------------------------

  /** What a holder knows of the row it may fail, and that no cause is needed of what the calls raise. */
  lemma HolderKnows(env: Env, s: State, w: nat)
    requires Inv(env, s) && w in s.deliveries && HeldStage(s.deliveries[w].pc).Some?
    ensures var d := s.deliveries[w];
            && d.job.document.parsed.Some? && d.job.document.parsed.value in s.tables
            && var e := s.tables[d.job.document.parsed.value];
            && e.row.contentHash == Some(d.job.contentHash) && e.row.mimeType == Some(d.job.mimeType)
            && e.row.pageCount == d.pageCount
            && (e.pages != [] ==> e.pages == env.extract(d.job.contentHash))
            && CarriedOk(env, d, d.job.document.parsed.value, e, s.points)
  {
    HolderFacts(env, s, w);
    HolderBasics(env, s, w);
  }

  lemma NeedsNoCause(env: Env, t: Tables, d: Delivery)
    requires d.job.document.parsed.Some? && d.job.document.parsed.value in t
    ensures forall reason: Reason
              | reason == StorageMissing || reason == StorageReadFailure || reason == ProcessingFailure
                || reason == ContentHashMismatch || reason == PdfOpenFailed || reason == PdfEncrypted
                || reason == PageLimitExceeded || reason == PdfParseFailed || reason == PdfTimeout
                || reason == ParserUnavailable || reason == ChunkingFailure || reason == EmbeddingFailure
                || reason == VectorStoreFailure || reason == EmbeddingDimensionMismatch ::
              CauseOn(env, t, d, reason)
  {
  }

  lemma ParsingExplains(env: Env, s: State, w: nat, choice: Choice)
    requires Inv(env, s) && w in s.deliveries && RowsExplained(env, s.tables)
    requires s.deliveries[w].pc.Fetching? || s.deliveries[w].pc.Extracting? || s.deliveries[w].pc.StoringParsed?
    ensures WellMoved(env, ParseStep(env, s, w, choice), w)
  {
    hide Inv, CarriedOk, RowsExplained, WellMoved, At, StoreParsed, CauseOn;
    var d := s.deliveries[w];
    HolderKnows(env, s, w);
    NeedsNoCause(env, s.tables, d);
    MovingExplains(env, s, w);
    if d.pc.StoringParsed? {
      TransactionsExplain(env, s.tables, s.now, d.job, d.config, d.pc.extracted, []);
      StoredExplains(env, s, w, StoreParsed(s.tables, s.now, d.job, d.pc.extracted));
    } else if d.pc.Extracting? {
      ExtractionCauses(env, s.tables, d);
    }
  }

  lemma ExtractionCauses(env: Env, t: Tables, d: Delivery)
    requires d.job.document.parsed.Some? && d.job.document.parsed.value in t
    requires t[d.job.document.parsed.value].row.contentHash == Some(d.job.contentHash)
    requires t[d.job.document.parsed.value].row.pageCount == d.pageCount
    ensures var pages := env.extract(d.job.contentHash);
            && (d.pageCount.Some? && |pages| != d.pageCount.value ==> CauseOn(env, t, d, PageCountMismatch))
            && (!HasText(pages) ==> CauseOn(env, t, d, NoExtractableText))
  {
  }

  /** A transaction settled leaves the delivery somewhere that needs no cause. */
  lemma StoredExplains(env: Env, s: State, w: nat, tx: Transaction)
    requires w in s.deliveries && RowsExplained(env, s.tables)
    requires tx.Committed? ==> RowsExplained(env, tx.tables)
    ensures forall committed: Pc, rolledBack: Pc
              | !committed.Failing? && Owed(env, s.tables, s.deliveries[w], rolledBack) ::
              WellMoved(env, Settle(s, w, tx, committed, rolledBack), w)
  {
    hide Cause, RowsExplained;
  }

  /** Only a deleted document has no pages or no chunks when its stage starts; and pages that give no chunk are a cause. */
  lemma MissingDataCauses(env: Env, s: State, w: nat)
    requires Inv(env, s) && w in s.deliveries
    requires HeldStage(s.deliveries[w].pc) == Some(ChunkStage) || HeldStage(s.deliveries[w].pc) == Some(EmbedStage)
    ensures var d := s.deliveries[w];
            && (ListPages(s.tables, d.job.document, d.job.owner) == [] ==>
                  CauseOn(env, s.tables, d, NoExtractedPages) && CauseOn(env, s.tables, d, NoChunksToEmbed))
            && (HeldStage(d.pc) == Some(EmbedStage) && ListChunks(s.tables, d.job.document, d.job.owner) == [] ==>
                  CauseOn(env, s.tables, d, NoChunksToEmbed))
            && (HeldStage(d.pc) == Some(EmbedStage) && Provenance(s.tables, d.job.document, d.job.owner) == {} ==>
                  CauseOn(env, s.tables, d, NoChunksToEmbed))
            && (forall pages | (d.pc == MakingChunks(pages) || d.pc == RemakingChunks(pages))
                               && env.chunk(d.config.version, pages) == [] ::
                  CauseOn(env, s.tables, d, NoChunksProduced))
  {
    hide Inv;
    HolderFacts(env, s, w);
    HolderKnows(env, s, w);
    var d := s.deliveries[w];
    var e := s.tables[d.job.document.parsed.value];
    if Owned(s.tables, d.job.document, d.job.owner) && HeldStage(d.pc) == Some(EmbedStage) {
      assert e.chunks[0].version in Provenance(s.tables, d.job.document, d.job.owner);
    }
  }

  lemma ChunkingExplains(env: Env, s: State, w: nat, choice: Choice)
    requires Inv(env, s) && w in s.deliveries && RowsExplained(env, s.tables)
    requires s.deliveries[w].pc.ReadingPages? || s.deliveries[w].pc.MakingChunks? || s.deliveries[w].pc.StoringChunks?
    ensures WellMoved(env, ChunkStep(env, s, w, choice), w)
  {
    hide Inv, CarriedOk, RowsExplained, WellMoved, At, StoreChunks, CauseOn, ListPages;
    var d := s.deliveries[w];
    HolderKnows(env, s, w);
    NeedsNoCause(env, s.tables, d);
    MovingExplains(env, s, w);
    MissingDataCauses(env, s, w);
    if d.pc.StoringChunks? {
      TransactionsExplain(env, s.tables, s.now, d.job, d.config, [], d.pc.made);
      StoredExplains(env, s, w, StoreChunks(s.tables, s.now, d.job, d.config, d.pc.made));
    }
  }

  lemma RechunkingExplains(env: Env, s: State, w: nat, choice: Choice)
    requires Inv(env, s) && w in s.deliveries && RowsExplained(env, s.tables)
    requires s.deliveries[w].pc.ReadingPagesAgain? || s.deliveries[w].pc.RemakingChunks?
             || s.deliveries[w].pc.DeletingVectors? || s.deliveries[w].pc.ReplacingChunks?
    ensures WellMoved(env, RechunkStep(env, s, w, choice), w)
  {
    hide Inv, CarriedOk, RowsExplained, WellMoved, At, ReplaceChunks, CauseOn, ListPages, PartialEffect, WithoutDocument;
    var d := s.deliveries[w];
    HolderKnows(env, s, w);
    NeedsNoCause(env, s.tables, d);
    MovingExplains(env, s, w);
    MissingDataCauses(env, s, w);
    if d.pc.ReplacingChunks? {
      TransactionsExplain(env, s.tables, s.now, d.job, d.config, [], d.pc.made);
      StoredExplains(env, s, w, ReplaceChunks(s.tables, s.now, d.job, d.config, d.pc.made));
    }
  }

  lemma ListingExplains(env: Env, s: State, w: nat, choice: Choice)
    requires Inv(env, s) && w in s.deliveries && RowsExplained(env, s.tables)
    requires s.deliveries[w].pc.CheckingProvenance? || s.deliveries[w].pc.ListingChunks? || s.deliveries[w].pc.StoringReady?
    ensures WellMoved(env, EmbedStep(env, s, w, choice), w)
  {
    hide Inv, CarriedOk, RowsExplained, WellMoved, At, StoreReady, CauseOn, ListChunks, Provenance;
    var d := s.deliveries[w];
    HolderKnows(env, s, w);
    NeedsNoCause(env, s.tables, d);
    MovingExplains(env, s, w);
    MissingDataCauses(env, s, w);
    if d.pc.StoringReady? {
      TransactionsExplain(env, s.tables, s.now, d.job, d.config, [], []);
      StoredExplains(env, s, w, StoreReady(s.tables, s.now, d.job, d.config));
    }
  }

  lemma IndexingExplains(env: Env, s: State, w: nat, choice: Choice)
    requires Inv(env, s) && w in s.deliveries && RowsExplained(env, s.tables)
    requires s.deliveries[w].pc.EmbeddingText? || s.deliveries[w].pc.Upserting?
    ensures WellMoved(env, EmbedStep(env, s, w, choice), w)
  {
    hide Inv, CarriedOk, RowsExplained, WellMoved, At, CauseOn, PartialEffect, RecordsFor;
    HolderKnows(env, s, w);
    NeedsNoCause(env, s.tables, s.deliveries[w]);
    MovingExplains(env, s, w);
  }

  lemma ClaimingExplains(env: Env, s: State, w: nat, choice: Choice)
    requires Inv(env, s) && w in s.deliveries && RowsExplained(env, s.tables)
    requires DeliveryExplained(env, s.tables, s.deliveries[w])
    requires s.deliveries[w].pc.Begin? || s.deliveries[w].pc.Claiming? || s.deliveries[w].pc.Failing?
             || s.deliveries[w].pc.Releasing? || s.deliveries[w].pc.Interrupted?
    ensures WellMoved(env, ClaimStep(s, w, choice), w)
  {
    hide Inv, RowsExplained, At, Cas, CauseOn;
    var d := s.deliveries[w];
    MovingExplains(env, s, w);
    match d.pc {
      case Claiming(stage) => EnteringExplains(env, s, w, stage);
      case Failing(_, reason) =>
        CasExplains(env, s, w, Processing, Failed, Some(reason), Done(Returned(HasFailed(reason))), Done(Returned(ClaimLost)));
      case Releasing(stage, reason) =>
        CasExplains(env, s, w, Processing, StartsAt(stage), None, Done(RaisedTransient(stage, reason)), Done(Returned(ClaimLost)));
      case Interrupted(stage) =>
        CasExplains(env, s, w, Processing, StartsAt(stage), None, Done(WasCancelled), Done(WasCancelled));
      case Begin => AdmittingExplains(env, s, w, choice);
    }
  }

  lemma AdmittingExplains(env: Env, s: State, w: nat, choice: Choice)
    requires w in s.deliveries && s.deliveries[w].pc.Begin? && RowsExplained(env, s.tables)
    ensures WellMoved(env, ClaimStep(s, w, choice), w)
  {
    hide RowsExplained, Owned, JobDisagreesWith, StorageKeyFor;
  }

  /** The claim of a parsing stage goes on, or fails a document of another type or with too many pages. */
  lemma EnteringExplains(env: Env, s: State, w: nat, stage: Stage)
    requires Inv(env, s) && w in s.deliveries && RowsExplained(env, s.tables) && s.deliveries[w].pc == Claiming(stage)
    ensures var d := s.deliveries[w];
            WellMoved(env, Cas(s, w, StartsAt(stage), Processing, None, Entered(d, stage), Done(Returned(SkippedInProgress))), w)
  {
    hide Inv, Cause, StartsAt;
    var d := s.deliveries[w];
    DeliveryFacts(env, s, w);
    var x := d.job.document.parsed.value;
    var t := Transition(s.tables, s.now, d.job.document, d.job.owner, StartsAt(stage), Processing, None, None).0;
    assert SameColumns(s.tables[x].row, t[x].row);
    EntryCauses(env, t, d);
  }

  lemma EntryCauses(env: Env, t: Tables, d: Delivery)
    requires d.job.document.parsed.Some? && d.job.document.parsed.value in t
    requires t[d.job.document.parsed.value].row.mimeType == Some(d.job.mimeType)
    ensures CauseOn(env, t, d, PageLimitExceeded)
    ensures d.job.mimeType != Pdf ==> CauseOn(env, t, d, UnsupportedMimeType)
  {
  }

  lemma GivingUpExplains(env: Env, s: State, w: nat, choice: Choice)
    requires w in s.deliveries && RowsExplained(env, s.tables)
    requires s.deliveries[w].pc.GivingUp? || s.deliveries[w].pc.CheckingProcessing? || s.deliveries[w].pc.RecordingGivenUp?
    ensures WellMoved(env, GiveUpStep(s, w, choice), w)
  {
    hide RowsExplained, At, Cas, Matches;
    MovingExplains(env, s, w);
    match s.deliveries[w].pc {
      case GivingUp(tried, claimed) =>
        var moved := if tried < 2 then GivingUp(tried + 1, true) else RecordingGivenUp(true);
        var lost := if tried < 2 then GivingUp(tried + 1, claimed)
                    else if claimed then RecordingGivenUp(true) else CheckingProcessing;
        CasExplains(env, s, w, Recoverable(tried), Processing, None, moved, lost);
      case RecordingGivenUp(_) => RecordingExplains(env, s, w);
      case _ =>
    }
  }

  lemma RecordingExplains(env: Env, s: State, w: nat)
    requires w in s.deliveries && RowsExplained(env, s.tables)
    ensures WellMoved(env, Cas(s, w, Processing, Failed, Some(ProcessingFailure), Done(RaisedError), Done(RaisedError)), w)
  {
  }

  lemma StepExplains(env: Env, s: State, w: nat, choice: Choice)
    requires Inv(env, s) && w in s.deliveries && RowsExplained(env, s.tables)
    requires DeliveryExplained(env, s.tables, s.deliveries[w])
    ensures WellMoved(env, StepDelivery(env, s, w, choice), w)
  {
    hide Inv, ParseStep, ChunkStep, RechunkStep, EmbedStep, ClaimStep, GiveUpStep, RowsExplained, DeliveryExplained;
    match s.deliveries[w].pc {
      case Fetching => ParsingExplains(env, s, w, choice);
      case Extracting => ParsingExplains(env, s, w, choice);
      case StoringParsed(_) => ParsingExplains(env, s, w, choice);
      case ReadingPages => ChunkingExplains(env, s, w, choice);
      case MakingChunks(_) => ChunkingExplains(env, s, w, choice);
      case StoringChunks(_) => ChunkingExplains(env, s, w, choice);
      case ReadingPagesAgain => RechunkingExplains(env, s, w, choice);
      case RemakingChunks(_) => RechunkingExplains(env, s, w, choice);
      case DeletingVectors(_) => RechunkingExplains(env, s, w, choice);
      case ReplacingChunks(_) => RechunkingExplains(env, s, w, choice);
      case CheckingProvenance => ListingExplains(env, s, w, choice);
      case ListingChunks => ListingExplains(env, s, w, choice);
      case EmbeddingText(_) => IndexingExplains(env, s, w, choice);
      case Upserting(_) => IndexingExplains(env, s, w, choice);
      case StoringReady => ListingExplains(env, s, w, choice);
      case GivingUp(_, _) => GivingUpExplains(env, s, w, choice);
      case CheckingProcessing => GivingUpExplains(env, s, w, choice);
      case RecordingGivenUp(_) => GivingUpExplains(env, s, w, choice);
      case Done(_) =>
      case _ => ClaimingExplains(env, s, w, choice);
    }
  }

  // --- runs --------------------------------------------------------------------------------

  lemma StillExplained(env: Env, t: Tables, u: Tables, d: Delivery)
    requires DeliveryExplained(env, t, d) && TablesAdvance(t, u)
    ensures DeliveryExplained(env, u, d)
  {
    if d.pc.Failing? {
      var x := d.job.document.parsed.value;
      if !t[x].row.deleted {
        SameCause(env, t[x].row, u[x].row, d.pc.reason);
      }
    }
  }

  /** Rows with the same columns and reason as before, or with one that needs no cause. */
  predicate SameReasons(t: Tables, u: Tables) {
    forall x | x in u && u[x].row.failureReason.Some? ::
      || u[x].row.failureReason == Some(StaleProcessing)
      || (x in t && SameColumns(t[x].row, u[x].row) && t[x].row.failureReason == u[x].row.failureReason)
  }

  lemma SameReasonsExplain(env: Env, t: Tables, u: Tables)
    requires RowsExplained(env, t) && SameReasons(t, u)
    ensures RowsExplained(env, u)
  {
    forall x | x in u && u[x].row.failureReason.Some?
      ensures Cause(env, u[x].row, u[x].row.failureReason.value)
    {
      if u[x].row.failureReason != Some(StaleProcessing) {
        SameCause(env, t[x].row, u[x].row, u[x].row.failureReason.value);
      }
    }
  }

  lemma OtherEventsExplain(env: Env, s: State, e: Event)
    requires Explained(env, s) && !(e.Step? && e.delivery in s.deliveries)
    ensures var r := Apply(env, s, e);
            && RowsExplained(env, r.tables)
            && forall v | v in r.deliveries ::
                 (v in s.deliveries && r.deliveries[v] == s.deliveries[v]) || !r.deliveries[v].pc.Failing?
  {
    hide Cause, RowsExplained, SameReasons;
    OtherEventsMove(env, s, e);
    SameReasonsExplain(env, s.tables, Apply(env, s, e).tables);
  }

  lemma OtherEventsMove(env: Env, s: State, e: Event)
    requires !(e.Step? && e.delivery in s.deliveries)
    ensures var r := Apply(env, s, e);
            && SameReasons(s.tables, r.tables)
            && forall v | v in r.deliveries ::
                 (v in s.deliveries && r.deliveries[v] == s.deliveries[v]) || !r.deliveries[v].pc.Failing?
  {
    hide PartialEffect, UniqueContent, HeldStage;
  }

  lemma ApplyExplains(env: Env, s: State, e: Event)
    requires Inv(env, s) && Explained(env, s)
    ensures Explained(env, Apply(env, s, e))
  {
    hide Inv, StepDelivery, Apply, RowsExplained, DeliveryExplained, TablesAdvance;
    var r := Apply(env, s, e);
    ApplyAdvances(env, s, e);
    if e.Step? && e.delivery in s.deliveries {
      StepExplains(env, s, e.delivery, e.choice);
      KeepsDeliveries(env, s, e.delivery, e.choice);
      StepIs(env, s, e);
    } else {
      OtherEventsExplain(env, s, e);
    }
    forall v | v in r.deliveries
      ensures DeliveryExplained(env, r.tables, r.deliveries[v])
    {
      if v in s.deliveries && r.deliveries[v] == s.deliveries[v] {
        StillExplained(env, s.tables, r.tables, s.deliveries[v]);
      } else if r.deliveries[v].pc.Failing? {
      } else {
        NothingOwed(env, r.tables, r.deliveries[v]);
      }
    }
  }

  lemma StepIs(env: Env, s: State, e: Event)
    requires e.Step? && e.delivery in s.deliveries
    ensures Apply(env, s, e) == StepDelivery(env, s, e.delivery, e.choice)
  {
    hide StepDelivery;
  }

  lemma NothingOwed(env: Env, t: Tables, d: Delivery)
    requires !d.pc.Failing?
    ensures DeliveryExplained(env, t, d)
  {
  }

  lemma {:induction false} RunExplains(env: Env, events: seq<Event>)
    requires GoodEnv(env) && AlikeJobs(env, events)
    ensures Explained(env, Run(env, Empty, events))
    decreases |events|
  {
    hide Explained, Apply, GoodEnv;
    if events == [] {
      NothingExplained(env);
    } else {
      var front := events[..|events| - 1];
      RunExplains(env, front);
      ReachedInv(env, front, Run(env, Empty, front));
      ApplyExplains(env, Run(env, Empty, front), events[|events| - 1]);
    }
  }

  lemma NothingExplained(env: Env)
    ensures Explained(env, Empty)
  {
  }

  /**
   In every reachable state, a document that failed for want of text has none on any page its bytes extract to,
   and so for every reason the columns and the collaborators decide.
   */
  lemma FailuresHaveTheirCause(env: Env, events: seq<Event>, s: State, x: Uuid, reason: Reason)
    requires Reached(env, events, s) && x in s.tables && s.tables[x].row.failureReason == Some(reason)
    ensures s.tables[x].row.status == Failed
    ensures Cause(env, s.tables[x].row, reason)
  {
    hide Cause, GoodEnv, Run;
    RunExplains(env, events);
    StatusesHaveTheirData(env, events, s, x);
  }

  // --- what an extraction failure is recorded as --------------------------------------------

  lemma ExtractionFailsTo(env: Env, s: State, w: nat, failure: ExtractionFailure, reason: Reason)
    requires w in s.deliveries && s.deliveries[w].pc == Extracting && reason == ReasonOf(failure)
    ensures StepDelivery(env, s, w, ExtractionFails(failure))
            == At(s, w, if failure == Unavailable && !s.deliveries[w].finalAttempt
                        then Releasing(ParseStage, reason) else Failing(ParseStage, reason))
  {
  }

  lemma SettlesIt(env: Env, s: State, w: nat)
    requires w in s.deliveries && (s.deliveries[w].pc.Failing? || s.deliveries[w].pc.Releasing?)
    requires Matches(s.tables, s.deliveries[w].job.document, s.deliveries[w].job.owner, Processing)
    ensures var r, d := StepDelivery(env, s, w, Succeeds), s.deliveries[w];
            && w in r.deliveries && d.job.document.parsed.value in r.tables
            && var row := r.tables[d.job.document.parsed.value].row;
            if d.pc.Failing?
            then && row.status == Failed && row.failureReason == Some(d.pc.reason)
                 && r.deliveries[w].pc == Done(Returned(HasFailed(d.pc.reason)))
            else row.status == StartsAt(d.pc.stage) && r.deliveries[w].pc == Done(RaisedTransient(d.pc.stage, d.pc.reason))
  {
  }

  /**
   Each failure of the extractor is recorded under its own reason. Only a parser that is not available is worth
   another attempt: then the document goes back to `pending`, unless the attempt was the last.
   */
  lemma {:induction false} ExtractionFailureIs(env: Env, s: State, w: nat, failure: ExtractionFailure, reason: Reason)
    requires w in s.deliveries && s.deliveries[w].pc == Extracting
    requires Matches(s.tables, s.deliveries[w].job.document, s.deliveries[w].job.owner, Processing)
    requires failure == OpenFailed ==> reason == PdfOpenFailed
    requires failure == Encrypted ==> reason == PdfEncrypted
    requires failure == TooManyPages ==> reason == PageLimitExceeded
    requires failure == ParseFailed ==> reason == PdfParseFailed
    requires failure == TimedOut ==> reason == PdfTimeout
    requires failure == Unavailable ==> reason == ParserUnavailable
    ensures var r, d := Alone(env, s, w, [ExtractionFails(failure), Succeeds]), s.deliveries[w];
            && d.job.document.parsed.value in r.tables
            && var row := r.tables[d.job.document.parsed.value].row;
            if failure == Unavailable && !d.finalAttempt
            then row.status == Pending && r.deliveries[w].pc == Done(RaisedTransient(ParseStage, reason))
            else && row.status == Failed && row.failureReason == Some(reason)
                 && r.deliveries[w].pc == Done(Returned(HasFailed(reason)))
  {
    hide StepDelivery, Matches;
    var choices, d := [ExtractionFails(failure), Succeeds], s.deliveries[w];
    assert choices[..1] == [ExtractionFails(failure)] && choices[..1][..0] == [];
    var pc := if failure == Unavailable && !d.finalAttempt then Releasing(ParseStage, reason) else Failing(ParseStage, reason);
    ExtractionFailsTo(env, s, w, failure, reason);
    assert Alone(env, s, w, choices[..1]) == At(s, w, pc);
    SettlesIt(env, At(s, w, pc), w);
  }
}
