/** Each event keeps the invariant; so does every run whose jobs of one document spell its id alike. */
module PipelineSafety {
  import opened Identifiers
  import opened Text
  import opened Tables
  import opened VectorIndex
  import opened Pipeline
  import opened PipelineInvariant
  import opened PipelineSteps

  // --- the steps of a delivery ----------------------------------------------------

  lemma ParseStepInv(env: Env, s: State, w: nat, choice: Choice)
    requires Inv(env, s) && w in s.deliveries
    ensures Inv(env, ParseStep(env, s, w, choice))
  {
    hide Inv, StoreParsed, CarriedOk;
    var d := s.deliveries[w];
    match d.pc {
      case Fetching => FetchingInv(env, s, w, choice);
      case Extracting => ExtractingInv(env, s, w, choice);
      case StoringParsed(_) =>
        if choice.Raises? {
          TransientInv(env, s, w, ParseStage, ProcessingFailure);
        } else {
          StoringParsedInv(env, s, w);
        }
      case _ =>
    }
  }

  /** A reason the missing-data checks never give. */
  lemma FailingInv(env: Env, s: State, w: nat, stage: Stage, reason: Reason)
    requires Inv(env, s) && w in s.deliveries && HeldStage(s.deliveries[w].pc) == Some(stage)
    requires reason != NoExtractedPages && reason != NoChunksToEmbed
    ensures Inv(env, At(s, w, Failing(stage, reason)))
  {
    hide Inv, DeliveryOk, CarriedOk;
    HolderBasics(env, s, w);
    var d := s.deliveries[w];
    SettlingCarries(env, d, Failing(stage, reason), d.job.document.parsed.value,
                    s.tables[d.job.document.parsed.value], s.points);
    Moves(env, s, w, Failing(stage, reason));
  }

  lemma FetchingInv(env: Env, s: State, w: nat, choice: Choice)
    requires Inv(env, s) && w in s.deliveries && s.deliveries[w].pc == Fetching
    ensures Inv(env, ParseStep(env, s, w, choice))
  {
    hide Inv, DeliveryOk, Transient;
    match choice {
      case ObjectMissing => FailingInv(env, s, w, ParseStage, StorageMissing);
      case Unreadable => TransientInv(env, s, w, ParseStage, StorageReadFailure);
      case Raises(_) => TransientInv(env, s, w, ParseStage, ProcessingFailure);
      case ReadsBytes(_) =>
        FailingInv(env, s, w, ParseStage, ContentHashMismatch);
        HolderBasics(env, s, w);
        Moves(env, s, w, Extracting);
      case _ =>
        HolderBasics(env, s, w);
        Moves(env, s, w, Extracting);
    }
  }

  lemma ExtractingInv(env: Env, s: State, w: nat, choice: Choice)
    requires Inv(env, s) && w in s.deliveries && s.deliveries[w].pc == Extracting
    ensures Inv(env, ParseStep(env, s, w, choice))
  {
    hide Inv, DeliveryOk, Transient, HasText;
    var d := s.deliveries[w];
    match choice {
      case ExtractionFails(f) =>
        if f == Unavailable {
          TransientInv(env, s, w, ParseStage, ReasonOf(f));
        } else {
          FailingInv(env, s, w, ParseStage, ReasonOf(f));
        }
      case Raises(_) => TransientInv(env, s, w, ParseStage, ProcessingFailure);
      case _ =>
        var pages := env.extract(d.job.contentHash);
        FailingInv(env, s, w, ParseStage, PageCountMismatch);
        FailingInv(env, s, w, ParseStage, NoExtractableText);
        if HasText(pages) {
          HolderBasics(env, s, w);
          Moves(env, s, w, StoringParsed(pages));
        }
    }
  }

  /** An exception the stage does not catch. */
  lemma UnclassifiedInv(env: Env, s: State, w: nat)
    requires Inv(env, s) && w in s.deliveries
    ensures Inv(env, At(s, w, Unclassified(s.deliveries[w])))
  {
    hide Inv, DeliveryOk;
    Leaves(env, s, w, Unclassified(s.deliveries[w]));
  }

  /** A read came back empty: only because the document was deleted meanwhile. */
  lemma EmptyReadInv(env: Env, s: State, w: nat, stage: Stage, reason: Reason)
    requires Inv(env, s) && w in s.deliveries && HeldStage(s.deliveries[w].pc) == Some(stage)
    requires !Owned(s.tables, s.deliveries[w].job.document, s.deliveries[w].job.owner)
    ensures Inv(env, At(s, w, Failing(stage, reason)))
  {
    hide Inv, DeliveryOk, CarriedOk;
    HolderBasics(env, s, w);
    var d := s.deliveries[w];
    SettlingCarries(env, d, Failing(stage, reason), d.job.document.parsed.value,
                    s.tables[d.job.document.parsed.value], s.points);
    Moves(env, s, w, Failing(stage, reason));
  }

  lemma ReadingInv(env: Env, s: State, w: nat, choice: Choice)
    requires Inv(env, s) && w in s.deliveries && s.deliveries[w].pc == ReadingPages
    ensures Inv(env, ChunkStep(env, s, w, choice))
  {
    hide Inv, DeliveryOk, Unclassified;
    var d := s.deliveries[w];
    UnclassifiedInv(env, s, w);
    HolderBasics(env, s, w);
    if Owned(s.tables, d.job.document, d.job.owner) {
      Moves(env, s, w, MakingChunks(ListPages(s.tables, d.job.document, d.job.owner)));
    } else {
      EmptyReadInv(env, s, w, ChunkStage, NoExtractedPages);
    }
  }

  lemma MakingInv(env: Env, s: State, w: nat, choice: Choice)
    requires Inv(env, s) && w in s.deliveries && s.deliveries[w].pc.MakingChunks?
    ensures Inv(env, ChunkStep(env, s, w, choice))
  {
    hide Inv, DeliveryOk, DocumentOk, Transient;
    var d := s.deliveries[w];
    TransientInv(env, s, w, ChunkStage, ChunkingFailure);
    FailingInv(env, s, w, ChunkStage, NoChunksProduced);
    HolderFacts(env, s, w);
    if env.chunk(d.config.version, d.pc.source) != [] {
      Moves(env, s, w, StoringChunks(env.chunk(d.config.version, d.pc.source)));
    }
  }

  lemma ChunkStepInv(env: Env, s: State, w: nat, choice: Choice)
    requires GoodEnv(env) && Inv(env, s) && w in s.deliveries
    ensures Inv(env, ChunkStep(env, s, w, choice))
  {
    hide Inv, StoreChunks, Transient;
    match s.deliveries[w].pc {
      case ReadingPages => ReadingInv(env, s, w, choice);
      case MakingChunks(_) => MakingInv(env, s, w, choice);
      case StoringChunks(_) =>
        TransientInv(env, s, w, ChunkStage, ChunkingFailure);
        StoringChunksInv(env, s, w);
      case _ =>
    }
  }

  /** A document with chunks still has the pages they were made from. */
  lemma ReadingAgainInv(env: Env, s: State, w: nat, choice: Choice)
    requires Inv(env, s) && w in s.deliveries && s.deliveries[w].pc == ReadingPagesAgain
    ensures Inv(env, RechunkStep(env, s, w, choice))
  {
    hide Inv, DeliveryOk, Unclassified;
    var d := s.deliveries[w];
    UnclassifiedInv(env, s, w);
    HolderFacts(env, s, w);
    if Owned(s.tables, d.job.document, d.job.owner) {
      Moves(env, s, w, RemakingChunks(ListPages(s.tables, d.job.document, d.job.owner)));
    } else {
      EmptyReadInv(env, s, w, EmbedStage, NoChunksToEmbed);
    }
  }

  lemma RemakingInv(env: Env, s: State, w: nat, choice: Choice)
    requires Inv(env, s) && w in s.deliveries && s.deliveries[w].pc.RemakingChunks?
    ensures Inv(env, RechunkStep(env, s, w, choice))
  {
    hide Inv, DeliveryOk, DocumentOk, Transient;
    var d := s.deliveries[w];
    TransientInv(env, s, w, EmbedStage, ChunkingFailure);
    FailingInv(env, s, w, EmbedStage, NoChunksProduced);
    HolderFacts(env, s, w);
    if env.chunk(d.config.version, d.pc.source) != [] {
      Moves(env, s, w, DeletingVectors(env.chunk(d.config.version, d.pc.source)));
    }
  }

  lemma RechunkStepInv(env: Env, s: State, w: nat, choice: Choice)
    requires GoodEnv(env) && Inv(env, s) && w in s.deliveries
    ensures Inv(env, RechunkStep(env, s, w, choice))
  {
    hide Inv, ReplaceChunks, Transient, PartialEffect, WithoutDocument;
    match s.deliveries[w].pc {
      case ReadingPagesAgain => ReadingAgainInv(env, s, w, choice);
      case RemakingChunks(_) => RemakingInv(env, s, w, choice);
      case DeletingVectors(_) => DeletingStepInv(env, s, w, choice);
      case ReplacingChunks(_) =>
        TransientInv(env, s, w, EmbedStage, ChunkingFailure);
        ReplacingChunksInv(env, s, w);
      case _ =>
    }
  }

  lemma AfterFailedCall(d: Delivery)
    ensures AfterStoreCall(Transient(d, EmbedStage, VectorStoreFailure))
    ensures AfterStoreCall(Unclassified(d))
  {
  }

  lemma DeletingStepInv(env: Env, s: State, w: nat, choice: Choice)
    requires Inv(env, s) && w in s.deliveries && s.deliveries[w].pc.DeletingVectors?
    ensures Inv(env, RechunkStep(env, s, w, choice))
  {
    hide Inv, DeliveryOk, Transient, PartialEffect, WithoutDocument, AfterStoreCall, Unclassified;
    var d := s.deliveries[w];
    AfterFailedCall(d);
    match choice {
      case StoreFails(took) => DeletingInv(env, s, w, took, Transient(d, EmbedStage, VectorStoreFailure));
      case Raises(took) => DeletingInv(env, s, w, took, Unclassified(d));
      case _ => DeletedInv(env, s, w);
    }
  }

  lemma UpsertingStepInv(env: Env, s: State, w: nat, choice: Choice)
    requires GoodEnv(env) && Inv(env, s) && w in s.deliveries && s.deliveries[w].pc.Upserting?
    ensures Inv(env, EmbedStep(env, s, w, choice))
  {
    hide Inv, DeliveryOk, Transient, PartialEffect, AfterStoreCall, Unclassified;
    var d := s.deliveries[w];
    AfterFailedCall(d);
    match choice {
      case StoreFails(took) => UpsertingInv(env, s, w, took, Transient(d, EmbedStage, VectorStoreFailure));
      case Raises(took) => UpsertingInv(env, s, w, took, Unclassified(d));
      case _ => UpsertedInv(env, s, w);
    }
  }

  /** The provenance of a holder's document: its one generation's version, unless it was deleted. */
  lemma ProvenanceIs(env: Env, s: State, w: nat)
    requires Inv(env, s) && w in s.deliveries && s.deliveries[w].pc == CheckingProvenance
    ensures var d := s.deliveries[w];
            var e := s.tables[d.job.document.parsed.value];
            && e.chunks != []
            && Provenance(s.tables, d.job.document, d.job.owner)
               == if Owned(s.tables, d.job.document, d.job.owner) then {e.chunks[0].version} else {}
  {
    HolderFacts(env, s, w);
    var d := s.deliveries[w];
    var e := s.tables[d.job.document.parsed.value];
    if Owned(s.tables, d.job.document, d.job.owner) {
      assert e.chunks[0].version in Provenance(s.tables, d.job.document, d.job.owner);
    }
  }

  lemma CheckingInv(env: Env, s: State, w: nat, choice: Choice)
    requires Inv(env, s) && w in s.deliveries && s.deliveries[w].pc == CheckingProvenance
    ensures Inv(env, EmbedStep(env, s, w, choice))
  {
    hide Inv, DeliveryOk, Provenance, Unclassified;
    var d := s.deliveries[w];
    UnclassifiedInv(env, s, w);
    HolderBasics(env, s, w);
    ProvenanceIs(env, s, w);
    if Owned(s.tables, d.job.document, d.job.owner) {
      Moves(env, s, w, ReadingPagesAgain);
      if s.tables[d.job.document.parsed.value].chunks[0].version == d.config.version {
        Moves(env, s, w, ListingChunks);
      }
    } else {
      EmptyReadInv(env, s, w, EmbedStage, NoChunksToEmbed);
    }
  }

  lemma ListingInv(env: Env, s: State, w: nat, choice: Choice)
    requires Inv(env, s) && w in s.deliveries && s.deliveries[w].pc == ListingChunks
    ensures Inv(env, EmbedStep(env, s, w, choice))
  {
    hide Inv, DeliveryOk, DocumentOk, Unclassified;
    var d := s.deliveries[w];
    UnclassifiedInv(env, s, w);
    HolderFacts(env, s, w);
    if Owned(s.tables, d.job.document, d.job.owner) {
      Moves(env, s, w, EmbeddingText(ListChunks(s.tables, d.job.document, d.job.owner)));
    } else {
      EmptyReadInv(env, s, w, EmbedStage, NoChunksToEmbed);
    }
  }

  lemma EmbeddingInv(env: Env, s: State, w: nat, choice: Choice)
    requires Inv(env, s) && w in s.deliveries && s.deliveries[w].pc.EmbeddingText?
    ensures Inv(env, EmbedStep(env, s, w, choice))
  {
    hide Inv, DeliveryOk, DocumentOk, Unclassified, Transient, RecordsFor;
    var d := s.deliveries[w];
    match choice {
      case EmbeddingFails => TransientInv(env, s, w, EmbedStage, EmbeddingFailure);
      case Raises(_) => UnclassifiedInv(env, s, w);
      case WrongWidth => FailingInv(env, s, w, EmbedStage, EmbeddingDimensionMismatch);
      case _ =>
        HolderFacts(env, s, w);
        Moves(env, s, w, Upserting(RecordsFor(env, d.job, d.config, d.job.document.parsed.value, d.pc.rows)));
    }
  }

  lemma EmbedStepInv(env: Env, s: State, w: nat, choice: Choice)
    requires GoodEnv(env) && Inv(env, s) && w in s.deliveries
    ensures Inv(env, EmbedStep(env, s, w, choice))
  {
    hide Inv, StoreReady;
    match s.deliveries[w].pc {
      case CheckingProvenance => CheckingInv(env, s, w, choice);
      case ListingChunks => ListingInv(env, s, w, choice);
      case EmbeddingText(_) => EmbeddingInv(env, s, w, choice);
      case Upserting(_) => UpsertingStepInv(env, s, w, choice);
      case StoringReady =>
        TransientInv(env, s, w, EmbedStage, ProcessingFailure);
        StoringReadyInv(env, s, w);
      case _ =>
    }
  }

  /** `ingest`'s checks let through a job that agrees with a resting row, and nothing else. */
  lemma AdmissionIs(t: Tables, job: Job)
    ensures Admission(t, job).Claiming? <==>
            && StorageKeyFor(job.owner, job.contentHash) == Some(job.storageKey)
            && Owned(t, job.document, job.owner)
            && JobDisagreesWith(job, t[job.document.parsed.value].row) == None
            && Admission(t, job).Claiming?
    ensures Admission(t, job).Claiming? || Admission(t, job).Done?
    ensures Admission(t, job).Claiming? ==>
              t[job.document.parsed.value].row.status == StartsAt(Admission(t, job).stage)
  {
  }

  lemma BeginInv(env: Env, s: State, w: nat, choice: Choice)
    requires Inv(env, s) && w in s.deliveries && s.deliveries[w].pc == Begin
    ensures Inv(env, ClaimStep(s, w, choice))
  {
    hide Inv, Admission, Unclassified;
    var d := s.deliveries[w];
    UnclassifiedInv(env, s, w);
    AdmissionIs(s.tables, d.job);
    AdmittedFacts(env, s, w);
    var pc := Admission(s.tables, d.job);
    var pages := if pc.Claiming? && Owned(s.tables, d.job.document, d.job.owner)
                 then s.tables[d.job.document.parsed.value].row.pageCount else None;
    OnlyPc(env, s, w, d.(pc := pc, pageCount := pages));
  }

  lemma FailingStepInv(env: Env, s: State, w: nat, choice: Choice)
    requires Inv(env, s) && w in s.deliveries && s.deliveries[w].pc.Failing?
    ensures Inv(env, ClaimStep(s, w, choice))
  {
    hide Inv, Cas, Unclassified;
    UnclassifiedInv(env, s, w);
    HolderFacts(env, s, w);
    var reason := s.deliveries[w].pc.reason;
    FailsInv(env, s, w, reason, Done(Returned(HasFailed(reason))), Done(Returned(ClaimLost)));
  }

  lemma ClaimStepInv(env: Env, s: State, w: nat, choice: Choice)
    requires Inv(env, s) && w in s.deliveries
    ensures Inv(env, ClaimStep(s, w, choice))
  {
    hide Inv, Cas, Unclassified, Admission;
    match s.deliveries[w].pc {
      case Begin => BeginInv(env, s, w, choice);
      case Claiming(stage) =>
        UnclassifiedInv(env, s, w);
        ClaimsInv(env, s, w, stage, Done(Returned(SkippedInProgress)));
      case Failing(_, _) => FailingStepInv(env, s, w, choice);
      case Releasing(stage, reason) =>
        UnclassifiedInv(env, s, w);
        ReleasesInv(env, s, w, stage, Done(RaisedTransient(stage, reason)), Done(Returned(ClaimLost)));
      case Interrupted(stage) =>
        Leaves(env, s, w, Done(WasCancelled));
        ReleasesInv(env, s, w, stage, Done(WasCancelled), Done(WasCancelled));
      case _ =>
    }
  }

  lemma GiveUpStepInv(env: Env, s: State, w: nat, choice: Choice)
    requires Inv(env, s) && w in s.deliveries
    ensures Inv(env, GiveUpStep(s, w, choice))
  {
    hide Inv, Cas;
    if choice.Raises? {
      Leaves(env, s, w, Done(RaisedError));
    } else {
      match s.deliveries[w].pc {
        case GivingUp(tried, claimed) =>
          var moved := if tried < 2 then GivingUp(tried + 1, true) else RecordingGivenUp(true);
          var lost := if tried < 2 then GivingUp(tried + 1, claimed)
                      else if claimed then RecordingGivenUp(true) else CheckingProcessing;
          GiveUpClaimsInv(env, s, w, Recoverable(tried), moved, lost);
        case CheckingProcessing =>
          Leaves(env, s, w, RecordingGivenUp(false));
          Leaves(env, s, w, Done(RaisedError));
        case RecordingGivenUp(_) =>
          FailsInv(env, s, w, ProcessingFailure, Done(RaisedError), Done(RaisedError));
        case _ =>
      }
    }
  }

  lemma StepInv(env: Env, s: State, w: nat, choice: Choice)
    requires GoodEnv(env) && Inv(env, s) && w in s.deliveries
    ensures Inv(env, StepDelivery(env, s, w, choice))
  {
    hide Inv, ParseStep, ChunkStep, RechunkStep, EmbedStep, ClaimStep, GiveUpStep;
    ParseStepInv(env, s, w, choice);
    ChunkStepInv(env, s, w, choice);
    RechunkStepInv(env, s, w, choice);
    EmbedStepInv(env, s, w, choice);
    ClaimStepInv(env, s, w, choice);
    GiveUpStepInv(env, s, w, choice);
  }

  // --- cancellation and death ---------------------------------------------------------

  lemma StopsInv(env: Env, s: State, w: nat, took: set<ChunkId>, pc: Pc)
    requires GoodEnv(env) && Inv(env, s) && w in s.deliveries
    requires pc.Done? || (pc.Interrupted? && HeldStage(s.deliveries[w].pc) == Some(pc.stage))
    ensures Inv(env, At(s.(points := PartialEffect(s.points, s.deliveries[w], took)), w, pc))
  {
    hide Inv, CarriedOk;
    var d := s.deliveries[w];
    if d.pc.Upserting? {
      UpsertingInv(env, s, w, took, pc);
    } else if d.pc.DeletingVectors? {
      DeletingInv(env, s, w, took, pc);
    } else if pc.Done? {
      Leaves(env, s, w, pc);
    } else {
      HolderBasics(env, s, w);
      SettlingCarries(env, d, pc, d.job.document.parsed.value, s.tables[d.job.document.parsed.value], s.points);
      Moves(env, s, w, pc);
    }
  }

  lemma CancelInv(env: Env, s: State, w: nat, took: set<ChunkId>)
    requires GoodEnv(env) && Inv(env, s) && w in s.deliveries
    ensures Inv(env, CancelDelivery(s, w, took)) && Inv(env, KillDelivery(s, w, took))
  {
    hide Inv, PartialEffect, HeldStage;
    var held := HeldStage(s.deliveries[w].pc);
    StopsInv(env, s, w, took, if held.Some? then Interrupted(held.value) else Done(WasCancelled));
    StopsInv(env, s, w, took, Done(WasKilled));
  }

  // --- events that belong to no delivery -----------------------------------------------

  /** What a sweep over the table or a delete may do to one entry. */
  ghost predicate Ages(now: nat, e: Entry, f: Entry) {
    && f.pages == e.pages && f.chunks == e.chunks
    && SameColumns(e.row, f.row) && f.row.chunkCount == e.row.chunkCount
    && (e.row.deleted ==> f.row.deleted)
    && e.row.updatedAt <= f.row.updatedAt <= now
    && (|| (f.row.status == e.row.status && f.row.failureReason == e.row.failureReason)
        || (e.row.status == Processing && f.row.status == Failed && f.row.failureReason == Some(StaleProcessing)))
  }

  lemma AgesInv(env: Env, s: State, t: Tables)
    requires Inv(env, s) && t.Keys == s.tables.Keys
    requires forall x | x in t :: Ages(s.now, s.tables[x], t[x])
    ensures Inv(env, s.(tables := t))
  {
    hide DocumentOk, PointOk, DeliveryOk;
    var r := s.(tables := t);
    forall x | x in t
      ensures DocumentOk(env, x, t[x], s.points) && t[x].row.updatedAt <= s.now
    {
      AgesDocument(env, s, t, x);
    }
    forall id | id in s.points
      ensures PointOk(env, t, id, s.points[id])
    {
      AgesPoint(env, s, t, id);
    }
    forall w | w in s.deliveries
      ensures DeliveryOk(env, r, s.deliveries[w])
    {
      AgesDelivery(env, s, t, w);
    }
  }

  lemma AgesPoint(env: Env, s: State, t: Tables, id: ChunkId)
    requires Inv(env, s) && id in s.points && t.Keys == s.tables.Keys
    requires forall x | x in t :: Ages(s.now, s.tables[x], t[x])
    ensures PointOk(env, t, id, s.points[id])
  {
    hide DocumentOk, DeliveryOk;
    PointFacts(env, s, id);
  }

  lemma AgesDocument(env: Env, s: State, t: Tables, x: Uuid)
    requires Inv(env, s) && x in t && x in s.tables && Ages(s.now, s.tables[x], t[x])
    ensures DocumentOk(env, x, t[x], s.points)
  {
    DocumentFacts(env, s, x);
  }

  lemma AgesDelivery(env: Env, s: State, t: Tables, w: nat)
    requires Inv(env, s) && t.Keys == s.tables.Keys && w in s.deliveries
    requires forall x | x in t :: Ages(s.now, s.tables[x], t[x])
    ensures DeliveryOk(env, s.(tables := t), s.deliveries[w])
  {
    DeliveryFacts(env, s, w);
    var d := s.deliveries[w];
    if HeldStage(d.pc).Some? {
      var x := d.job.document.parsed.value;
      CarriedKeeps(env, d, x, s.tables[x], t[x], s.points, s.points);
    }
  }

  lemma DeliverInv(env: Env, s: State, w: nat, job: Job, config: Config, finalAttempt: bool)
    requires Inv(env, s) && SpellsAlike(env, job)
    ensures Inv(env, Apply(env, s, Deliver(w, job, config, finalAttempt)))
  {
    hide DocumentOk, PointOk, DeliveryOk, UniqueContent;
    if w !in s.deliveries {
      var d := Delivery(job, config, finalAttempt, s.now, None, Begin);
      var r := s.(deliveries := s.deliveries[w := d]);
      forall v | v in r.deliveries
        ensures DeliveryOk(env, r, r.deliveries[v])
      {
        if v == w {
          NewDeliveryOk(env, r, d);
        } else {
          DeliveryStaysOk(env, s, r, s.deliveries[v]);
        }
      }
    }
  }

  lemma NewDeliveryOk(env: Env, r: State, d: Delivery)
    requires SpellsAlike(env, d.job) && d.pc == Begin && d.startedAt == r.now
    ensures DeliveryOk(env, r, d)
  {
  }

  lemma DeliveryStaysOk(env: Env, s: State, r: State, d: Delivery)
    requires DeliveryOk(env, s, d) && r.tables == s.tables && r.points == s.points && r.now == s.now
    ensures DeliveryOk(env, r, d)
  {
    hide CarriedOk;
  }

  lemma UploadKeepsDelivery(env: Env, s: State, document: Uuid, e: Entry, v: nat)
    requires Inv(env, s) && v in s.deliveries && document !in s.tables
    ensures DeliveryOk(env, s.(tables := s.tables[document := e]), s.deliveries[v])
  {
    DeliveryFacts(env, s, v);
    var d := s.deliveries[v];
    if HeldStage(d.pc).Some? {
      var x := d.job.document.parsed.value;
      CarriedKeeps(env, d, x, s.tables[x], s.tables[x], s.points, s.points);
    }
  }

  lemma UploadInv(env: Env, s: State, document: Uuid, row: Document)
    requires Inv(env, s)
    ensures Inv(env, Apply(env, s, Upload(document, row)))
  {
    hide DocumentOk, DeliveryOk, PointOk;
    var e := Entry(row, [], []);
    var r := s.(tables := s.tables[document := e]);
    if document !in s.tables && NewRow(row, s.now) && UniqueContent(r.tables) {
      UploadedOk(env, document, row, s.points, s.now);
      forall x | x in r.tables
        ensures DocumentOk(env, x, r.tables[x], r.points) && r.tables[x].row.updatedAt <= r.now
      {
        if x != document {
          DocumentFacts(env, s, x);
        }
      }
      forall v | v in r.deliveries
        ensures DeliveryOk(env, r, r.deliveries[v])
      {
        UploadKeepsDelivery(env, s, document, e, v);
      }
      forall id | id in r.points
        ensures PointOk(env, r.tables, id, r.points[id])
      {
        PointFacts(env, s, id);
        PointElsewhere(env, s.tables, document, e, id, s.points[id]);
      }
    }
  }

  lemma UploadedOk(env: Env, x: Uuid, row: Document, points: Points, now: nat)
    requires NewRow(row, now)
    ensures DocumentOk(env, x, Entry(row, [], []), points)
  {
  }

  lemma PointFacts(env: Env, s: State, id: ChunkId)
    requires Inv(env, s) && id in s.points
    ensures PointOk(env, s.tables, id, s.points[id])
  {
  }

  lemma PointElsewhere(env: Env, t: Tables, x: Uuid, e: Entry, id: ChunkId, p: Point)
    requires PointOk(env, t, id, p) && x !in t
    ensures PointOk(env, t[x := e], id, p)
  {
  }

  lemma TickInv(env: Env, s: State)
    requires Inv(env, s)
    ensures Inv(env, s.(now := s.now + 1))
  {
    var r := s.(now := s.now + 1);
    forall v | v in r.deliveries
      ensures DeliveryOk(env, r, r.deliveries[v])
    {
      DeliveryFacts(env, s, v);
    }
    hide DocumentOk, DeliveryOk, PointOk;
  }

  lemma ReapInv(env: Env, s: State, staleAfter: nat)
    requires Inv(env, s)
    ensures Inv(env, s.(tables := FailStale(s.tables, s.now, staleAfter)))
  {
    var t := FailStale(s.tables, s.now, staleAfter);
    forall x | x in t
      ensures Ages(s.now, s.tables[x], t[x])
    {
      DocumentFacts(env, s, x);
    }
    AgesInv(env, s, t);
  }

  lemma DeleteInv(env: Env, s: State, target: RawId<Uuid>, user: RawId<Uuid>)
    requires Inv(env, s)
    ensures Inv(env, s.(tables := SoftDelete(s.tables, s.now, target, user).0))
  {
    var t := SoftDelete(s.tables, s.now, target, user).0;
    forall x | x in t
      ensures Ages(s.now, s.tables[x], t[x])
    {
      DocumentFacts(env, s, x);
    }
    AgesInv(env, s, t);
  }

  // --- runs ---------------------------------------------------------------------------------

  /** The job delivered spells its document's id as the document's other jobs do. */
  predicate AlikeJob(env: Env, e: Event) {
    e.Deliver? ==> SpellsAlike(env, e.job)
  }

  predicate AlikeJobs(env: Env, events: seq<Event>) {
    forall i | 0 <= i < |events| :: AlikeJob(env, events[i])
  }

  lemma ApplyInv(env: Env, s: State, e: Event)
    requires GoodEnv(env) && Inv(env, s) && AlikeJob(env, e)
    ensures Inv(env, Apply(env, s, e))
  {
    hide Inv, StepDelivery, CancelDelivery, KillDelivery, FailStale, SoftDelete, UniqueContent;
    match e {
      case Step(w, choice) => if w in s.deliveries { StepInv(env, s, w, choice); }
      case Cancel(w, took) => if w in s.deliveries { CancelInv(env, s, w, took); }
      case Kill(w, took) => if w in s.deliveries { CancelInv(env, s, w, took); }
      case Deliver(w, job, config, finalAttempt) => DeliverInv(env, s, w, job, config, finalAttempt);
      case Upload(document, row) => UploadInv(env, s, document, row);
      case Delete(target, user) => DeleteInv(env, s, target, user);
      case Reap(staleAfter) => ReapInv(env, s, staleAfter);
      case Tick => TickInv(env, s);
    }
  }

  /** In every state of every run, under any interleaving and any faults. */
  lemma {:induction false} RunInv(env: Env, s: State, events: seq<Event>)
    requires GoodEnv(env) && Inv(env, s) && AlikeJobs(env, events)
    ensures Inv(env, Run(env, s, events))
    decreases |events|
  {
    if events != [] {
      RunInv(env, s, events[..|events| - 1]);
      ApplyInv(env, Run(env, s, events[..|events| - 1]), events[|events| - 1]);
    }
  }
}
