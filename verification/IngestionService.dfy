/**
 One delivery of an ingestion job, as the worker runs it. Every call that waits is an `Await`, at which
 anything others do may happen and the delivery may be cancelled. Whether a call fails is the oracle's
 to say, never the worker's. Each method is shown to take exactly the steps of the pipeline, so what is proved of the
 pipeline's runs holds at every point of this code.
 */
module IngestionServices {
  import opened Identifiers
  import opened Text
  import opened Tables
  import opened VectorIndex
  import opened Pipeline
  import opened Repositories
  import opened Worlds
  import opened ServiceSteps
  import opened VectorStores

  /** How a call comes back: with a result, or with an exception. */
  datatype Exit =
    | Result(outcome: Outcome)
    | TransientIngestionError(stage: Stage, reason: Reason)
    | OtherException
    | CancelledError

  /** How a call to the vector store ends. */
  datatype Answer = Answered | VectorStoreError | StoreRaised | StoreCancelled

  /** How a transaction ends: committed, with whether a row matched, or rolled back by an exception. */
  datatype Ending = Ended(moved: bool) | Raised | Cancelled

  class IngestionService {
    const world: World
    const w: nat
    const job: Job
    const config: Config
    const finalAttempt: bool
    const startedAt: nat

    constructor (world: World, w: nat)
      requires w in world.deliveries
      ensures this.world == world && this.w == w
      ensures var d := world.deliveries[w];
              job == d.job && config == d.config && finalAttempt == d.finalAttempt && startedAt == d.startedAt
    {
      this.world, this.w := world, w;
      var d := world.deliveries[w];
      job, config, finalAttempt, startedAt := d.job, d.config, d.finalAttempt, d.startedAt;
    }

    function This(pageCount: Option<nat>, pc: Pc): Delivery {
      Delivery(job, config, finalAttempt, startedAt, pageCount, pc)
    }

    /** This delivery is at `pc`, in a state some run reaches. */
    ghost predicate At(pageCount: Option<nat>, pc: Pc)
      reads world
    {
      world.Valid() && w in world.deliveries && world.deliveries[w] == This(pageCount, pc)
    }

    /** `s` is the state a step of this delivery started from, at `pc`; the stores may have changed since. */
    ghost predicate From(s: State, pageCount: Option<nat>, pc: Pc)
      reads world`now, world`deliveries, world`history, world`moments
    {
      world.LedTo(s) && Here(s, pageCount, pc) && world.now == s.now && world.deliveries == s.deliveries
    }

    predicate Here(s: State, pageCount: Option<nat>, pc: Pc) {
      w in s.deliveries && s.deliveries[w] == This(pageCount, pc)
    }

    /** Where an exception nothing in the service catches leaves the delivery. */
    function Uncaught(): Pc {
      if finalAttempt then GivingUp(0, false) else Done(RaisedError)
    }

    /** `_transient`, before its transaction. */
    function Retrying(stage: Stage, reason: Reason): Pc {
      if finalAttempt then Failing(stage, reason) else Releasing(stage, reason)
    }

    /** Where an exit from inside stage `stage` leaves the delivery. */
    function After(stage: Stage, exit: Exit): Pc {
      match exit
      case Result(outcome) =>
        if outcome == WasParsed then Claiming(ChunkStage)
        else if outcome == WasChunked then Claiming(EmbedStage)
        else Done(Returned(outcome))
      case TransientIngestionError(from, reason) => Done(RaisedTransient(from, reason))
      case OtherException => Uncaught()
      case CancelledError => Interrupted(stage)
    }

    /** The outcomes a stage can end with. */
    predicate Belongs(stage: Stage, exit: Exit) {
      exit.Result? ==>
        && (exit.outcome == WasParsed ==> stage == ParseStage)
        && (exit.outcome == WasChunked ==> stage == ChunkStage)
        && (exit.outcome == BecameReady ==> stage == EmbedStage)
    }

    // --- waiting and stepping ----------------------------------------------------------

    method Wait(pages: Option<nat>, ghost pc: Pc, shielded: bool := false) returns (cancelled: bool)
      requires At(pages, pc) && !pc.Done?
      modifies world
      ensures At(pages, if cancelled then Interruption(pc) else pc) && old(world.history) <= world.history
      ensures shielded ==> !cancelled
      ensures !cancelled ==> From(world.Now(), pages, pc)
    {
      hide Run, Interruption;
      cancelled := world.Await(w, shielded);
    }

    /** The stores are as one step of this delivery leaves them. */
    method Took(ghost s: State, pages: Option<nat>, ghost pc: Pc, ghost choice: Choice,
                nextPages: Option<nat>, next: Pc)
      requires From(s, pages, pc) && choice == world.oracle(world.moments)
      requires Goes(world.env, s, w, choice, world.tables, world.points, This(nextPages, next))
      modifies world`deliveries, world`history, world`moments
      ensures At(nextPages, next) && old(world.history) <= world.history
    {
      hide Run, Goes;
      world.Took(s, w, choice, This(nextPages, next));
    }

    /** A step that changes no store. */
    method Pass(ghost s: State, pages: Option<nat>, ghost pc: Pc, ghost choice: Choice, next: Pc)
      requires From(s, pages, pc) && world.tables == s.tables && world.points == s.points
      requires choice == world.oracle(world.moments)
      requires Passes(world.env, s, w, choice, next)
      modifies world`deliveries, world`history, world`moments
      ensures At(pages, next) && old(world.history) <= world.history
    {
      hide At, Run, Goes;
      Took(s, pages, pc, choice, pages, next);
    }

    /** One step from `pc` is this compare-and-set. */
    ghost predicate IsCas(pages: Option<nat>, pc: Pc, expected: Status, next: Status, reason: Option<Reason>,
                          moved: Pc, lost: Pc, failed: Pc)
    {
      forall s: State, choice: Choice | Here(s, pages, pc) ::
        MayCas(world.env, s, w, choice, expected, next, reason, moved, lost, failed)
    }

    lemma CasStep(s: State, pages: Option<nat>, pc: Pc, choice: Choice, expected: Status, next: Status,
                  reason: Option<Reason>, moved: Pc, lost: Pc, failed: Pc)
      requires From(s, pages, pc) && IsCas(pages, pc, expected, next, reason, moved, lost, failed)
      ensures choice.Raises? ==> Goes(world.env, s, w, choice, s.tables, s.points, This(pages, failed))
      ensures !choice.Raises? ==>
                var (t, matched) := Transition(s.tables, s.now, job.document, job.owner, expected, next, reason, None);
                Goes(world.env, s, w, choice, t, s.points, This(pages, if matched then moved else lost))
    {
      hide Goes, Transition, Run, MayCas;
      assert Here(s, pages, pc);
      CasGoes(world.env, s, w, choice, expected, next, reason, moved, lost, failed);
    }

    /** `_transition`: one committed compare-and-set. */
    method TransitionStatus(pages: Option<nat>, ghost pc: Pc, expected: Status, next: Status,
                            reason: Option<Reason>, moved: Pc, lost: Pc, failed: Pc, shielded: bool := false)
      returns (r: Ending)
      requires At(pages, pc) && !pc.Done? && IsCas(pages, pc, expected, next, reason, moved, lost, failed)
      modifies world
      ensures old(world.history) <= world.history
      ensures shielded ==> !r.Cancelled?
      ensures At(pages, match r
                        case Ended(matched) => if matched then moved else lost
                        case Raised => failed
                        case Cancelled => Interruption(pc))
    {
      hide At, From, Run, Transition, Goes, Interruption, IsCas, Passes, Sets, Here;
      var cancelled := Wait(pages, pc, shielded);
      if cancelled {
        return Cancelled;
      }
      ghost var before := world.Now();
      var choice := world.oracle(world.moments);
      var raises := choice.Raises?;
      CasStep(before, pages, pc, choice, expected, next, reason, moved, lost, failed);
      var session := new Session(world.tables, world.now);
      var documents := new DocumentRepository(session);
      var matched := documents.TransitionStatusForUser(job.document, job.owner, expected, next, reason, None);
      if raises {
        Took(before, pages, pc, choice, pages, failed);
        return Raised;
      }
      world.tables := session.tables;
      Took(before, pages, pc, choice, pages, if matched then moved else lost);
      r := Ended(matched);
    }

    // --- leaving a stage -----------------------------------------------------------------

    lemma FailsIs(pages: Option<nat>, stage: Stage, reason: Reason)
      ensures IsCas(pages, Failing(stage, reason), Processing, Failed, Some(reason),
                    Done(Returned(HasFailed(reason))), Done(Returned(ClaimLost)), Uncaught())
      ensures Interruption(Failing(stage, reason)) == Interrupted(stage)
    {
      hide MayCas;
      forall s: State, choice: Choice | Here(s, pages, Failing(stage, reason))
        ensures MayCas(world.env, s, w, choice, Processing, Failed, Some(reason),
                       Done(Returned(HasFailed(reason))), Done(Returned(ClaimLost)), Uncaught())
      {
        Fails(world.env, s, w, choice, stage, reason);
      }
    }

    /** `_fail` */
    method Fail(pages: Option<nat>, stage: Stage, reason: Reason) returns (exit: Exit)
      requires At(pages, Failing(stage, reason))
      modifies world
      ensures At(pages, After(stage, exit)) && old(world.history) <= world.history
      ensures exit.Result? ==> exit.outcome == HasFailed(reason) || exit.outcome == ClaimLost
      ensures !exit.TransientIngestionError?
    {
      hide At, IsCas, Interruption;
      FailsIs(pages, stage, reason);
      var ending := TransitionStatus(pages, Failing(stage, reason), Processing, Failed, Some(reason),
                                     Done(Returned(HasFailed(reason))), Done(Returned(ClaimLost)), Uncaught());
      exit := match ending
        case Ended(moved) => Result(if moved then HasFailed(reason) else ClaimLost)
        case Raised => OtherException
        case Cancelled => CancelledError;
    }

    lemma ReleasesIs(pages: Option<nat>, stage: Stage, reason: Reason)
      ensures IsCas(pages, Releasing(stage, reason), Processing, StartsAt(stage), None,
                    Done(RaisedTransient(stage, reason)), Done(Returned(ClaimLost)), Uncaught())
      ensures Interruption(Releasing(stage, reason)) == Interrupted(stage)
    {
      hide MayCas;
      forall s: State, choice: Choice | Here(s, pages, Releasing(stage, reason))
        ensures MayCas(world.env, s, w, choice, Processing, StartsAt(stage), None,
                       Done(RaisedTransient(stage, reason)), Done(Returned(ClaimLost)), Uncaught())
      {
        Releases(world.env, s, w, choice, stage, reason);
      }
    }

    /** `_transient` */
    method FailTransiently(pages: Option<nat>, stage: Stage, reason: Reason) returns (exit: Exit)
      requires At(pages, Retrying(stage, reason))
      modifies world
      ensures At(pages, After(stage, exit)) && old(world.history) <= world.history
      ensures exit.Result? ==> exit.outcome == ClaimLost || (finalAttempt && exit.outcome == HasFailed(reason))
      ensures exit.TransientIngestionError? ==> !finalAttempt
    {
      hide At, IsCas, Interruption;
      if finalAttempt {
        exit := Fail(pages, stage, reason);
        return;
      }
      ReleasesIs(pages, stage, reason);
      var ending := TransitionStatus(pages, Releasing(stage, reason), Processing, StartsAt(stage), None,
                                     Done(RaisedTransient(stage, reason)), Done(Returned(ClaimLost)), Uncaught());
      exit := match ending
        case Ended(released) => if released then TransientIngestionError(stage, reason) else Result(ClaimLost)
        case Raised => OtherException
        case Cancelled => CancelledError;
    }

    lemma ReleasesInterruptedIs(pages: Option<nat>, stage: Stage)
      ensures IsCas(pages, Interrupted(stage), Processing, StartsAt(stage), None,
                    Done(WasCancelled), Done(WasCancelled), Done(WasCancelled))
    {
      hide MayCas;
      forall s: State, choice: Choice | Here(s, pages, Interrupted(stage))
        ensures MayCas(world.env, s, w, choice, Processing, StartsAt(stage), None,
                       Done(WasCancelled), Done(WasCancelled), Done(WasCancelled))
      {
        ReleasesInterrupted(world.env, s, w, choice, stage);
      }
    }

    /** `_release_after_interruption`, shielded from a second cancellation. */
    method ReleaseAfterInterruption(pages: Option<nat>, stage: Stage)
      requires At(pages, Interrupted(stage))
      modifies world
      ensures At(pages, Done(WasCancelled)) && old(world.history) <= world.history
    {
      hide At, IsCas, Interruption;
      ReleasesInterruptedIs(pages, stage);
      var released := TransitionStatus(pages, Interrupted(stage), Processing, StartsAt(stage), None,
                                       Done(WasCancelled), Done(WasCancelled), Done(WasCancelled), true);
    }

    // --- parsing ----------------------------------------------------------------------------

    /** `_store_parsed` */
    method StoreParsed(pages: Option<nat>, extracted: seq<Page>) returns (r: Ending)
      requires At(pages, StoringParsed(extracted))
      modifies world
      ensures old(world.history) <= world.history
      ensures At(pages, match r
                        case Ended(moved) => if moved then Claiming(ChunkStage) else Done(Returned(ClaimLost))
                        case Raised => Retrying(ParseStage, ProcessingFailure)
                        case Cancelled => Interrupted(ParseStage))
    {
      hide At, From, Run, Transition, AddPages, Goes, Here;
      var cancelled := Wait(pages, StoringParsed(extracted));
      if cancelled {
        return Cancelled;
      }
      ghost var before := world.Now();
      var choice := world.oracle(world.moments);
      var raises := choice.Raises?;
      StoresParsedStep(before, pages, choice, extracted);
      var session := new Session(world.tables, world.now);
      var documents := new DocumentRepository(session);
      var documentPages := new DocumentPageRepository(session);
      var moved := documents.TransitionStatusForUser(job.document, job.owner, Processing, Parsed, None, None);
      if raises {
        Took(before, pages, StoringParsed(extracted), choice, pages, Retrying(ParseStage, ProcessingFailure));
        return Raised;
      }
      if !moved {
        Took(before, pages, StoringParsed(extracted), choice, pages, Done(Returned(ClaimLost)));
        return Ended(false);
      }
      var added := documentPages.AddForUser(job.document, job.owner, extracted);
      if !added {
        Took(before, pages, StoringParsed(extracted), choice, pages, Retrying(ParseStage, ProcessingFailure));
        return Raised;
      }
      world.tables := session.tables;
      Took(before, pages, StoringParsed(extracted), choice, pages, Claiming(ChunkStage));
      r := Ended(true);
    }

    lemma StoresParsedStep(s: State, pages: Option<nat>, choice: Choice, extracted: seq<Page>)
      requires From(s, pages, StoringParsed(extracted))
      ensures var tx := Pipeline.StoreParsed(s.tables, s.now, job, extracted);
              var raised := Retrying(ParseStage, ProcessingFailure);
              if choice.Raises? then Goes(world.env, s, w, choice, s.tables, s.points, This(pages, raised))
              else Goes(world.env, s, w, choice, if tx.Committed? then tx.tables else s.tables, s.points,
                        This(pages, AfterTransaction(tx, Claiming(ChunkStage), raised)))
    {
      hide Goes, Pipeline.StoreParsed, Run;
      StoresParsed(world.env, s, w, choice, extracted);
    }

    /** `_process_claimed` */
    method ProcessClaimed(target: Document) returns (exit: Exit)
      requires target.mimeType == Some(job.mimeType)
      requires At(target.pageCount, Entered(This(target.pageCount, Begin), ParseStage))
      modifies world
      ensures At(target.pageCount, After(ParseStage, exit)) && old(world.history) <= world.history
      ensures Belongs(ParseStage, exit)
      ensures finalAttempt ==> !exit.TransientIngestionError?
    {
      hide At, From, Passes, HasText, ReasonOf;
      var pages := target.pageCount;
      if target.mimeType != Some(Pdf) {
        exit := Fail(pages, ParseStage, UnsupportedMimeType);
        return;
      }
      if pages.Some? && pages.value > config.maxPages {
        exit := Fail(pages, ParseStage, PageLimitExceeded);
        return;
      }

      var cancelled := Wait(pages, Fetching);
      if cancelled {
        return CancelledError;
      }
      ghost var fetching := world.Now();
      var got := world.oracle(world.moments);
      FetchesStep(fetching, pages, got);
      if got.ObjectMissing? {
        Pass(fetching, pages, Fetching, got, Failing(ParseStage, StorageMissing));
        exit := Fail(pages, ParseStage, StorageMissing);
        return;
      } else if got.Unreadable? {
        Pass(fetching, pages, Fetching, got, Retrying(ParseStage, StorageReadFailure));
        exit := FailTransiently(pages, ParseStage, StorageReadFailure);
        return;
      } else if got.Raises? {
        Pass(fetching, pages, Fetching, got, Retrying(ParseStage, ProcessingFailure));
        exit := FailTransiently(pages, ParseStage, ProcessingFailure);
        return;
      }
      var content := if got.ReadsBytes? then got.hash else job.contentHash;
      if content != job.contentHash {
        Pass(fetching, pages, Fetching, got, Failing(ParseStage, ContentHashMismatch));
        exit := Fail(pages, ParseStage, ContentHashMismatch);
        return;
      }
      Pass(fetching, pages, Fetching, got, Extracting);
      exit := ExtractVerified(target);
    }

    /** `_process_claimed`, once the bytes are the bytes validated at upload. */
    method ExtractVerified(target: Document) returns (exit: Exit)
      requires At(target.pageCount, Extracting)
      modifies world
      ensures At(target.pageCount, After(ParseStage, exit)) && old(world.history) <= world.history
      ensures Belongs(ParseStage, exit)
      ensures finalAttempt ==> !exit.TransientIngestionError?
    {
      hide At, From, Passes, HasText, ReasonOf;
      var pages := target.pageCount;
      var cancelled := Wait(pages, Extracting);
      if cancelled {
        return CancelledError;
      }
      ghost var extracting := world.Now();
      var got := world.oracle(world.moments);
      ExtractsStep(extracting, pages, got);
      if got.ExtractionFails? && got.failure == Unavailable {
        Pass(extracting, pages, Extracting, got, Retrying(ParseStage, ReasonOf(got.failure)));
        exit := FailTransiently(pages, ParseStage, ReasonOf(got.failure));
        return;
      } else if got.ExtractionFails? {
        Pass(extracting, pages, Extracting, got, Failing(ParseStage, ReasonOf(got.failure)));
        exit := Fail(pages, ParseStage, ReasonOf(got.failure));
        return;
      } else if got.Raises? {
        Pass(extracting, pages, Extracting, got, Retrying(ParseStage, ProcessingFailure));
        exit := FailTransiently(pages, ParseStage, ProcessingFailure);
        return;
      }
      var extracted := world.env.extract(job.contentHash);
      if pages.Some? && |extracted| != pages.value {
        Pass(extracting, pages, Extracting, got, Failing(ParseStage, PageCountMismatch));
        exit := Fail(pages, ParseStage, PageCountMismatch);
        return;
      }
      if !HasText(extracted) {
        Pass(extracting, pages, Extracting, got, Failing(ParseStage, NoExtractableText));
        exit := Fail(pages, ParseStage, NoExtractableText);
        return;
      }
      Pass(extracting, pages, Extracting, got, StoringParsed(extracted));

      var stored := StoreParsed(pages, extracted);
      match stored {
        case Ended(moved) => exit := Result(if moved then WasParsed else ClaimLost);
        case Raised => exit := FailTransiently(pages, ParseStage, ProcessingFailure);
        case Cancelled => exit := CancelledError;
      }
    }

    lemma FetchesStep(s: State, pages: Option<nat>, choice: Choice)
      requires From(s, pages, Fetching)
      ensures Passes(world.env, s, w, choice,
                     if choice.ObjectMissing? then Failing(ParseStage, StorageMissing)
                     else if choice.Unreadable? then Retrying(ParseStage, StorageReadFailure)
                     else if choice.Raises? then Retrying(ParseStage, ProcessingFailure)
                     else if choice.ReadsBytes? && choice.hash != job.contentHash
                     then Failing(ParseStage, ContentHashMismatch)
                     else Extracting)
    {
      hide Passes, Run;
      Fetches(world.env, s, w, choice);
    }

    lemma ExtractsStep(s: State, pages: Option<nat>, choice: Choice)
      requires From(s, pages, Extracting)
      ensures Passes(world.env, s, w, choice,
                     if choice.ExtractionFails? && choice.failure == Unavailable
                     then Retrying(ParseStage, ReasonOf(choice.failure))
                     else if choice.ExtractionFails? then Failing(ParseStage, ReasonOf(choice.failure))
                     else if choice.Raises? then Retrying(ParseStage, ProcessingFailure)
                     else
                       var extracted := world.env.extract(job.contentHash);
                       if pages.Some? && |extracted| != pages.value then Failing(ParseStage, PageCountMismatch)
                       else if !HasText(extracted) then Failing(ParseStage, NoExtractableText)
                       else StoringParsed(extracted))
    {
      hide Passes, Run, ReasonOf, HasText;
      Extracts(world.env, s, w, choice);
    }

    // --- chunking ---------------------------------------------------------------------------

    /** `_chunk_claimed` */
    method ChunkClaimed(pages: Option<nat>) returns (exit: Exit)
      requires At(pages, ReadingPages)
      modifies world
      ensures At(pages, After(ChunkStage, exit)) && old(world.history) <= world.history
      ensures Belongs(ChunkStage, exit)
      ensures finalAttempt ==> !exit.TransientIngestionError?
    {
      hide At, From, Passes;
      var cancelled := Wait(pages, ReadingPages);
      if cancelled {
        return CancelledError;
      }
      ghost var reading := world.Now();
      var choice := world.oracle(world.moments);
      var raises := choice.Raises?;
      ReadsPagesStep(reading, pages, choice);
      if raises {
        Pass(reading, pages, ReadingPages, choice, Uncaught());
        return OtherException;
      }
      var source := ReadStoredPages();
      if source == [] {
        Pass(reading, pages, ReadingPages, choice, Failing(ChunkStage, NoExtractedPages));
        exit := Fail(pages, ChunkStage, NoExtractedPages);
        return;
      }
      Pass(reading, pages, ReadingPages, choice, MakingChunks(source));
      exit := ChunkPages(pages, source);
    }

    /** `_chunk_claimed`, once the pages are read. */
    method ChunkPages(pages: Option<nat>, source: seq<Page>) returns (exit: Exit)
      requires At(pages, MakingChunks(source))
      modifies world
      ensures At(pages, After(ChunkStage, exit)) && old(world.history) <= world.history
      ensures Belongs(ChunkStage, exit)
      ensures finalAttempt ==> !exit.TransientIngestionError?
    {
      hide At, From, Passes;
      var cancelled := Wait(pages, MakingChunks(source));
      if cancelled {
        return CancelledError;
      }
      ghost var making := world.Now();
      var choice := world.oracle(world.moments);
      var raises := choice.Raises?;
      MakesChunksStep(making, pages, choice, source);
      if raises {
        Pass(making, pages, MakingChunks(source), choice, Retrying(ChunkStage, ChunkingFailure));
        exit := FailTransiently(pages, ChunkStage, ChunkingFailure);
        return;
      }
      var chunks := world.env.chunk(config.version, source);
      if chunks == [] {
        Pass(making, pages, MakingChunks(source), choice, Failing(ChunkStage, NoChunksProduced));
        exit := Fail(pages, ChunkStage, NoChunksProduced);
        return;
      }
      Pass(making, pages, MakingChunks(source), choice, StoringChunks(chunks));

      var stored := StoreChunks(pages, chunks);
      match stored {
        case Ended(moved) => exit := Result(if moved then WasChunked else ClaimLost);
        case Raised => exit := FailTransiently(pages, ChunkStage, ChunkingFailure);
        case Cancelled => exit := CancelledError;
      }
    }

    method ReadStoredPages() returns (source: seq<Page>)
      ensures source == ListPages(world.tables, job.document, job.owner)
    {
      hide *;
      var session := new Session(world.tables, world.now);
      var documentPages := new DocumentPageRepository(session);
      source := documentPages.ListForDocument(job.document, job.owner);
    }

    lemma ReadsPagesStep(s: State, pages: Option<nat>, choice: Choice)
      requires From(s, pages, ReadingPages)
      ensures var source := ListPages(s.tables, job.document, job.owner);
              Passes(world.env, s, w, choice,
                     if choice.Raises? then Uncaught()
                     else if source == [] then Failing(ChunkStage, NoExtractedPages) else MakingChunks(source))
    {
      hide Passes, Run, ListPages;
      ReadsPages(world.env, s, w, choice);
    }

    lemma MakesChunksStep(s: State, pages: Option<nat>, choice: Choice, source: seq<Page>)
      requires From(s, pages, MakingChunks(source))
      ensures var chunks := world.env.chunk(config.version, source);
              Passes(world.env, s, w, choice,
                     if choice.Raises? then Retrying(ChunkStage, ChunkingFailure)
                     else if chunks == [] then Failing(ChunkStage, NoChunksProduced) else StoringChunks(chunks))
    {
      hide Passes, Run;
      MakesChunks(world.env, s, w, choice, source);
    }

    /** `_store_chunks` */
    method StoreChunks(pages: Option<nat>, chunks: seq<Text.Chunk>) returns (r: Ending)
      requires At(pages, StoringChunks(chunks))
      modifies world
      ensures old(world.history) <= world.history
      ensures At(pages, match r
                        case Ended(moved) => if moved then Claiming(EmbedStage) else Done(Returned(ClaimLost))
                        case Raised => Retrying(ChunkStage, ChunkingFailure)
                        case Cancelled => Interrupted(ChunkStage))
    {
      hide At, From, Run, Transition, AddChunks, Goes, Here;
      var cancelled := Wait(pages, StoringChunks(chunks));
      if cancelled {
        return Cancelled;
      }
      ghost var before := world.Now();
      var choice := world.oracle(world.moments);
      var raises := choice.Raises?;
      StoresChunksStep(before, pages, choice, chunks);
      var session := new Session(world.tables, world.now);
      var documents := new DocumentRepository(session);
      var documentChunks := new DocumentChunkRepository(session);
      var moved := documents.TransitionStatusForUser(job.document, job.owner, Processing, Chunked, None, Some(|chunks|));
      if raises {
        Took(before, pages, StoringChunks(chunks), choice, pages, Retrying(ChunkStage, ChunkingFailure));
        return Raised;
      }
      if !moved {
        Took(before, pages, StoringChunks(chunks), choice, pages, Done(Returned(ClaimLost)));
        return Ended(false);
      }
      var added := documentChunks.AddMany(job.document, job.owner, chunks, config.version);
      if !added {
        Took(before, pages, StoringChunks(chunks), choice, pages, Retrying(ChunkStage, ChunkingFailure));
        return Raised;
      }
      world.tables := session.tables;
      Took(before, pages, StoringChunks(chunks), choice, pages, Claiming(EmbedStage));
      r := Ended(true);
    }

    lemma StoresChunksStep(s: State, pages: Option<nat>, choice: Choice, chunks: seq<Text.Chunk>)
      requires From(s, pages, StoringChunks(chunks))
      ensures var tx := Pipeline.StoreChunks(s.tables, s.now, job, config, chunks);
              var raised := Retrying(ChunkStage, ChunkingFailure);
              if choice.Raises? then Goes(world.env, s, w, choice, s.tables, s.points, This(pages, raised))
              else Goes(world.env, s, w, choice, if tx.Committed? then tx.tables else s.tables, s.points,
                        This(pages, AfterTransaction(tx, Claiming(EmbedStage), raised)))
    {
      hide Goes, Pipeline.StoreChunks, Run;
      StoresChunks(world.env, s, w, choice, chunks);
    }

    // --- re-chunking --------------------------------------------------------------------------

    /** `_rechunk`: None once the document is ready to embed. */
    method Rechunk(pages: Option<nat>) returns (over: Option<Exit>)
      requires At(pages, ReadingPagesAgain)
      modifies world
      ensures old(world.history) <= world.history
      ensures At(pages, if over.None? then ListingChunks else After(EmbedStage, over.value))
      ensures over.Some? ==> Belongs(EmbedStage, over.value)
      ensures over.Some? && finalAttempt ==> !over.value.TransientIngestionError?
    {
      hide At, From, Passes;
      var exit;
      var cancelled := Wait(pages, ReadingPagesAgain);
      if cancelled {
        return Some(CancelledError);
      }
      ghost var reading := world.Now();
      var choice := world.oracle(world.moments);
      var raises := choice.Raises?;
      ReadsPagesAgainStep(reading, pages, choice);
      if raises {
        Pass(reading, pages, ReadingPagesAgain, choice, Uncaught());
        return Some(OtherException);
      }
      var source := ReadStoredPages();
      if source == [] {
        Pass(reading, pages, ReadingPagesAgain, choice, Failing(EmbedStage, NoChunksToEmbed));
        exit := Fail(pages, EmbedStage, NoChunksToEmbed);
        return Some(exit);
      }
      Pass(reading, pages, ReadingPagesAgain, choice, RemakingChunks(source));
      over := RechunkPages(pages, source);
    }

    /** `_rechunk`, once the pages are read. */
    method RechunkPages(pages: Option<nat>, source: seq<Page>) returns (over: Option<Exit>)
      requires At(pages, RemakingChunks(source))
      modifies world
      ensures old(world.history) <= world.history
      ensures At(pages, if over.None? then ListingChunks else After(EmbedStage, over.value))
      ensures over.Some? ==> Belongs(EmbedStage, over.value)
      ensures over.Some? && finalAttempt ==> !over.value.TransientIngestionError?
    {
      hide At, From, Passes;
      var exit;
      var cancelled := Wait(pages, RemakingChunks(source));
      if cancelled {
        return Some(CancelledError);
      }
      ghost var making := world.Now();
      var choice := world.oracle(world.moments);
      var raises := choice.Raises?;
      RemakesChunksStep(making, pages, choice, source);
      if raises {
        Pass(making, pages, RemakingChunks(source), choice, Retrying(EmbedStage, ChunkingFailure));
        exit := FailTransiently(pages, EmbedStage, ChunkingFailure);
        return Some(exit);
      }
      var chunks := world.env.chunk(config.version, source);
      if chunks == [] {
        Pass(making, pages, RemakingChunks(source), choice, Failing(EmbedStage, NoChunksProduced));
        exit := Fail(pages, EmbedStage, NoChunksProduced);
        return Some(exit);
      }
      Pass(making, pages, RemakingChunks(source), choice, DeletingVectors(chunks));
      over := ReplaceGeneration(pages, chunks);
    }

    /** `_rechunk`, once the chunks are made: old vectors first, then the rows. */
    method ReplaceGeneration(pages: Option<nat>, chunks: seq<Text.Chunk>) returns (over: Option<Exit>)
      requires At(pages, DeletingVectors(chunks))
      modifies world
      ensures old(world.history) <= world.history
      ensures At(pages, if over.None? then ListingChunks else After(EmbedStage, over.value))
      ensures over.Some? ==> Belongs(EmbedStage, over.value)
      ensures over.Some? && finalAttempt ==> !over.value.TransientIngestionError?
    {
      hide At;
      var exit;
      var deleted := DeleteVectors(pages, chunks);
      match deleted {
        case Answered =>
        case VectorStoreError =>
          exit := FailTransiently(pages, EmbedStage, VectorStoreFailure);
          return Some(exit);
        case StoreRaised => return Some(OtherException);
        case StoreCancelled => return Some(CancelledError);
      }

      var replaced := ReplaceChunks(pages, chunks);
      match replaced {
        case Ended(moved) => over := if moved then None else Some(Result(ClaimLost));
        case Raised =>
          exit := FailTransiently(pages, EmbedStage, ChunkingFailure);
          over := Some(exit);
        case Cancelled => over := Some(CancelledError);
      }
    }

    lemma ReadsPagesAgainStep(s: State, pages: Option<nat>, choice: Choice)
      requires From(s, pages, ReadingPagesAgain)
      ensures var source := ListPages(s.tables, job.document, job.owner);
              Passes(world.env, s, w, choice,
                     if choice.Raises? then Uncaught()
                     else if source == [] then Failing(EmbedStage, NoChunksToEmbed) else RemakingChunks(source))
    {
      hide Passes, Run, ListPages;
      ReadsPagesAgain(world.env, s, w, choice);
    }

    lemma RemakesChunksStep(s: State, pages: Option<nat>, choice: Choice, source: seq<Page>)
      requires From(s, pages, RemakingChunks(source))
      ensures var chunks := world.env.chunk(config.version, source);
              Passes(world.env, s, w, choice,
                     if choice.Raises? then Retrying(EmbedStage, ChunkingFailure)
                     else if chunks == [] then Failing(EmbedStage, NoChunksProduced) else DeletingVectors(chunks))
    {
      hide Passes, Run;
      RemakesChunks(world.env, s, w, choice, source);
    }

    /** Deletes the document's vectors from the store. */
    method DeleteVectors(pages: Option<nat>, chunks: seq<Text.Chunk>) returns (r: Answer)
      requires At(pages, DeletingVectors(chunks))
      modifies world
      ensures old(world.history) <= world.history
      ensures At(pages, match r
                        case Answered => ReplacingChunks(chunks)
                        case VectorStoreError => Retrying(EmbedStage, VectorStoreFailure)
                        case StoreRaised => Uncaught()
                        case StoreCancelled => Interrupted(EmbedStage))
    {
      hide At, From, Run, Goes, Here, WithoutDocument, Part;
      var cancelled := Wait(pages, DeletingVectors(chunks));
      if cancelled {
        return StoreCancelled;
      }
      ghost var before := world.Now();
      var choice := world.oracle(world.moments);
      DeletesVectorsStep(before, pages, choice, chunks);
      var vectors := new InMemoryVectorStore(world.points, None);
      var raised := vectors.DeleteDocument(job.document, job.owner, FaultOf(choice));
      world.points := vectors.points;
      if choice.StoreFails? {
        Took(before, pages, DeletingVectors(chunks), choice, pages, Retrying(EmbedStage, VectorStoreFailure));
        return VectorStoreError;
      } else if choice.Raises? {
        Took(before, pages, DeletingVectors(chunks), choice, pages, Uncaught());
        return StoreRaised;
      }
      Took(before, pages, DeletingVectors(chunks), choice, pages, ReplacingChunks(chunks));
      r := Answered;
    }

    function FaultOf(choice: Choice): Option<set<ChunkId>> {
      if choice.StoreFails? || choice.Raises? then Some(choice.took) else None
    }

    lemma DeletesVectorsStep(s: State, pages: Option<nat>, choice: Choice, chunks: seq<Text.Chunk>)
      requires From(s, pages, DeletingVectors(chunks))
      ensures var without := WithoutDocument(s.points, job.document, job.owner);
              match FaultOf(choice)
              case None => Goes(world.env, s, w, choice, s.tables, without, This(pages, ReplacingChunks(chunks)))
              case Some(took) =>
                Goes(world.env, s, w, choice, s.tables, s.points - Part(s.points - without.Keys, took).Keys,
                     This(pages, if choice.StoreFails? then Retrying(EmbedStage, VectorStoreFailure) else Uncaught()))
    {
      hide Goes, Run, WithoutDocument, Part;
      DeletesVectors(world.env, s, w, choice, chunks);
    }

    /** `_replace_chunks` */
    method ReplaceChunks(pages: Option<nat>, chunks: seq<Text.Chunk>) returns (r: Ending)
      requires At(pages, ReplacingChunks(chunks))
      modifies world
      ensures old(world.history) <= world.history
      ensures At(pages, match r
                        case Ended(moved) => if moved then ListingChunks else Done(Returned(ClaimLost))
                        case Raised => Retrying(EmbedStage, ChunkingFailure)
                        case Cancelled => Interrupted(EmbedStage))
    {
      hide At, From, Run, Transition, AddChunks, DeleteChunks, Goes, Here;
      var cancelled := Wait(pages, ReplacingChunks(chunks));
      if cancelled {
        return Cancelled;
      }
      ghost var before := world.Now();
      var choice := world.oracle(world.moments);
      var raises := choice.Raises?;
      ReplacesChunksStep(before, pages, choice, chunks);
      var session := new Session(world.tables, world.now);
      var documents := new DocumentRepository(session);
      var documentChunks := new DocumentChunkRepository(session);
      var moved := documents.TransitionStatusForUser(job.document, job.owner, Processing, Processing, None,
                                                     Some(|chunks|));
      if raises {
        Took(before, pages, ReplacingChunks(chunks), choice, pages, Retrying(EmbedStage, ChunkingFailure));
        return Raised;
      }
      if !moved {
        Took(before, pages, ReplacingChunks(chunks), choice, pages, Done(Returned(ClaimLost)));
        return Ended(false);
      }
      var deleted := documentChunks.DeleteForDocument(job.document, job.owner);
      var added := documentChunks.AddMany(job.document, job.owner, chunks, config.version);
      if !added {
        Took(before, pages, ReplacingChunks(chunks), choice, pages, Retrying(EmbedStage, ChunkingFailure));
        return Raised;
      }
      world.tables := session.tables;
      Took(before, pages, ReplacingChunks(chunks), choice, pages, ListingChunks);
      r := Ended(true);
    }

    lemma ReplacesChunksStep(s: State, pages: Option<nat>, choice: Choice, chunks: seq<Text.Chunk>)
      requires From(s, pages, ReplacingChunks(chunks))
      ensures var tx := Pipeline.ReplaceChunks(s.tables, s.now, job, config, chunks);
              var raised := Retrying(EmbedStage, ChunkingFailure);
              if choice.Raises? then Goes(world.env, s, w, choice, s.tables, s.points, This(pages, raised))
              else Goes(world.env, s, w, choice, if tx.Committed? then tx.tables else s.tables, s.points,
                        This(pages, AfterTransaction(tx, ListingChunks, raised)))
    {
      hide Goes, Pipeline.ReplaceChunks, Run;
      ReplacesChunks(world.env, s, w, choice, chunks);
    }

    // --- embedding -----------------------------------------------------------------------------

    /** `_embed_claimed` */
    method EmbedClaimed(pages: Option<nat>) returns (exit: Exit)
      requires At(pages, CheckingProvenance) && job.document.parsed.Some?
      modifies world
      ensures At(pages, After(EmbedStage, exit)) && old(world.history) <= world.history
      ensures Belongs(EmbedStage, exit)
      ensures finalAttempt ==> !exit.TransientIngestionError?
    {
      hide At, From, Passes, Provenance;
      var cancelled := Wait(pages, CheckingProvenance);
      if cancelled {
        return CancelledError;
      }
      ghost var checking := world.Now();
      var choice := world.oracle(world.moments);
      var raises := choice.Raises?;
      ChecksProvenanceStep(checking, pages, choice);
      if raises {
        Pass(checking, pages, CheckingProvenance, choice, Uncaught());
        return OtherException;
      }
      var session := new Session(world.tables, world.now);
      var documentChunks := new DocumentChunkRepository(session);
      var provenance := documentChunks.ProvenanceForDocument(job.document, job.owner);
      if provenance == {} {
        Pass(checking, pages, CheckingProvenance, choice, Failing(EmbedStage, NoChunksToEmbed));
        exit := Fail(pages, EmbedStage, NoChunksToEmbed);
        return;
      }
      if provenance != {config.version} {
        Pass(checking, pages, CheckingProvenance, choice, ReadingPagesAgain);
        var over := Rechunk(pages);
        if over.Some? {
          return over.value;
        }
      } else {
        Pass(checking, pages, CheckingProvenance, choice, ListingChunks);
      }
      exit := EmbedChunks(pages);
    }

    /** `_embed_claimed`, once the chunks are of the current version. */
    method EmbedChunks(pages: Option<nat>) returns (exit: Exit)
      requires At(pages, ListingChunks) && job.document.parsed.Some?
      modifies world
      ensures At(pages, After(EmbedStage, exit)) && old(world.history) <= world.history
      ensures Belongs(EmbedStage, exit)
      ensures finalAttempt ==> !exit.TransientIngestionError?
    {
      hide At, From, Passes, ListChunks, RecordsFor, Written;
      var cancelled := Wait(pages, ListingChunks);
      if cancelled {
        return CancelledError;
      }
      ghost var listing := world.Now();
      var choice := world.oracle(world.moments);
      var raises := choice.Raises?;
      ListsChunksStep(listing, pages, choice);
      if raises {
        Pass(listing, pages, ListingChunks, choice, Uncaught());
        return OtherException;
      }
      var session := new Session(world.tables, world.now);
      var documentChunks := new DocumentChunkRepository(session);
      var rows := documentChunks.ListForDocument(job.document, job.owner);
      if rows == [] {
        Pass(listing, pages, ListingChunks, choice, Failing(EmbedStage, NoChunksToEmbed));
        exit := Fail(pages, EmbedStage, NoChunksToEmbed);
        return;
      }
      Pass(listing, pages, ListingChunks, choice, EmbeddingText(rows));
      exit := EmbedRows(pages, rows);
    }

    /** `_embed_claimed`, once the chunks are read. */
    method EmbedRows(pages: Option<nat>, rows: seq<ChunkRow>) returns (exit: Exit)
      requires At(pages, EmbeddingText(rows)) && job.document.parsed.Some?
      modifies world
      ensures At(pages, After(EmbedStage, exit)) && old(world.history) <= world.history
      ensures Belongs(EmbedStage, exit)
      ensures finalAttempt ==> !exit.TransientIngestionError?
    {
      hide At, From, Passes, RecordsFor, Written;
      var cancelled := Wait(pages, EmbeddingText(rows));
      if cancelled {
        return CancelledError;
      }
      ghost var embedding := world.Now();
      var got := world.oracle(world.moments);
      EmbedsStep(embedding, pages, got, rows);
      if got.EmbeddingFails? {
        Pass(embedding, pages, EmbeddingText(rows), got, Retrying(EmbedStage, EmbeddingFailure));
        exit := FailTransiently(pages, EmbedStage, EmbeddingFailure);
        return;
      } else if got.Raises? {
        Pass(embedding, pages, EmbeddingText(rows), got, Uncaught());
        return OtherException;
      } else if got.WrongWidth? {
        Pass(embedding, pages, EmbeddingText(rows), got, Failing(EmbedStage, EmbeddingDimensionMismatch));
        exit := Fail(pages, EmbedStage, EmbeddingDimensionMismatch);
        return;
      }
      var records := RecordsOf(rows);
      Pass(embedding, pages, EmbeddingText(rows), got, Upserting(Written(records)));

      exit := IndexRecords(pages, records);
    }

    /** `_embed_claimed`, from the upsert on. */
    method IndexRecords(pages: Option<nat>, records: seq<VectorRecord>) returns (exit: Exit)
      requires At(pages, Upserting(Written(records)))
      modifies world
      ensures At(pages, After(EmbedStage, exit)) && old(world.history) <= world.history
      ensures Belongs(EmbedStage, exit)
      ensures finalAttempt ==> !exit.TransientIngestionError?
    {
      hide At, Written;
      var upserted := Upsert(pages, records);
      match upserted {
        case Answered =>
        case VectorStoreError =>
          exit := FailTransiently(pages, EmbedStage, VectorStoreFailure);
          return;
        case StoreRaised => return OtherException;
        case StoreCancelled => return CancelledError;
      }

      var stored := StoreReady(pages);
      match stored {
        case Ended(moved) => exit := Result(if moved then BecameReady else ClaimLost);
        case Raised => exit := FailTransiently(pages, EmbedStage, ProcessingFailure);
        case Cancelled => exit := CancelledError;
      }
    }

    /** One record a chunk: its id, its vector, and `_payload_for` it. */
    method RecordsOf(rows: seq<ChunkRow>) returns (records: seq<VectorRecord>)
      requires job.document.parsed.Some?
      ensures Written(records) == RecordsFor(world.env, job, config, job.document.parsed.value, rows)
    {
      var document := job.document.parsed.value;
      var vectors := seq(|rows|, i requires 0 <= i < |rows| => world.env.embed(config.embedding, rows[i].chunk.content));
      records := [];
      for i := 0 to |rows|
        invariant |records| == i
        invariant Written(records) == RecordsFor(world.env, job, config, document, rows[..i])
      {
        assert rows[..i + 1][..i] == rows[..i];
        var id := IdOf(document, rows[i]);
        var record := VectorRecord(id, Point(vectors[i], PayloadFor(job, config, id, rows[i].chunk)));
        assert (records + [record])[..i] == records;
        records := records + [record];
      }
      assert rows[..|rows|] == rows;
    }

    /** Writes the batch to the store. */
    method Upsert(pages: Option<nat>, records: seq<VectorRecord>) returns (r: Answer)
      requires At(pages, Upserting(Written(records)))
      modifies world
      ensures old(world.history) <= world.history
      ensures At(pages, match r
                        case Answered => StoringReady
                        case VectorStoreError => Retrying(EmbedStage, VectorStoreFailure)
                        case StoreRaised => Uncaught()
                        case StoreCancelled => Interrupted(EmbedStage))
    {
      hide At, From, Run, Goes, Here, Written, Part;
      ghost var batch := Written(records);
      var cancelled := Wait(pages, Upserting(batch));
      if cancelled {
        return StoreCancelled;
      }
      ghost var before := world.Now();
      var choice := world.oracle(world.moments);
      UpsertsStep(before, pages, choice, batch);
      var vectors := new InMemoryVectorStore(world.points, None);
      var raised := vectors.Upsert(records, FaultOf(choice));
      AnyWidthFits(records);
      world.points := vectors.points;
      if choice.StoreFails? {
        Took(before, pages, Upserting(batch), choice, pages, Retrying(EmbedStage, VectorStoreFailure));
        return VectorStoreError;
      } else if choice.Raises? {
        Took(before, pages, Upserting(batch), choice, pages, Uncaught());
        return StoreRaised;
      }
      Took(before, pages, Upserting(batch), choice, pages, StoringReady);
      r := Answered;
    }

    lemma ChecksProvenanceStep(s: State, pages: Option<nat>, choice: Choice)
      requires From(s, pages, CheckingProvenance)
      ensures var provenance := Provenance(s.tables, job.document, job.owner);
              Passes(world.env, s, w, choice,
                     if choice.Raises? then Uncaught()
                     else if provenance == {} then Failing(EmbedStage, NoChunksToEmbed)
                     else if provenance != {config.version} then ReadingPagesAgain
                     else ListingChunks)
    {
      hide Passes, Run, Provenance;
      ChecksProvenance(world.env, s, w, choice);
    }

    lemma ListsChunksStep(s: State, pages: Option<nat>, choice: Choice)
      requires From(s, pages, ListingChunks)
      ensures var rows := ListChunks(s.tables, job.document, job.owner);
              Passes(world.env, s, w, choice,
                     if choice.Raises? then Uncaught()
                     else if rows == [] then Failing(EmbedStage, NoChunksToEmbed) else EmbeddingText(rows))
    {
      hide Passes, Run, ListChunks;
      ListsChunks(world.env, s, w, choice);
    }

    lemma {:induction false} EmbedsStep(s: State, pages: Option<nat>, choice: Choice, rows: seq<ChunkRow>)
      requires From(s, pages, EmbeddingText(rows)) && job.document.parsed.Some?
      ensures Passes(world.env, s, w, choice,
                     if choice.EmbeddingFails? then Retrying(EmbedStage, EmbeddingFailure)
                     else if choice.Raises? then Uncaught()
                     else if choice.WrongWidth? then Failing(EmbedStage, EmbeddingDimensionMismatch)
                     else Upserting(RecordsFor(world.env, job, config, job.document.parsed.value, rows)))
    {
      hide Passes, Run, RecordsFor;
      Embeds(world.env, s, w, choice, rows);
    }

    lemma UpsertsStep(s: State, pages: Option<nat>, choice: Choice, records: Points)
      requires From(s, pages, Upserting(records))
      ensures match FaultOf(choice)
              case None => Goes(world.env, s, w, choice, s.tables, s.points + records, This(pages, StoringReady))
              case Some(took) =>
                Goes(world.env, s, w, choice, s.tables, s.points + Part(records, took),
                     This(pages, if choice.StoreFails? then Retrying(EmbedStage, VectorStoreFailure) else Uncaught()))
    {
      hide Goes, Run, Part;
      Upserts(world.env, s, w, choice, records);
    }

    /** `_store_ready` */
    method StoreReady(pages: Option<nat>) returns (r: Ending)
      requires At(pages, StoringReady)
      modifies world
      ensures old(world.history) <= world.history
      ensures At(pages, match r
                        case Ended(moved) => Done(Returned(if moved then BecameReady else ClaimLost))
                        case Raised => Retrying(EmbedStage, ProcessingFailure)
                        case Cancelled => Interrupted(EmbedStage))
    {
      hide At, From, Run, Transition, MarkEmbedded, Goes, Here;
      var cancelled := Wait(pages, StoringReady);
      if cancelled {
        return Cancelled;
      }
      ghost var before := world.Now();
      var choice := world.oracle(world.moments);
      var raises := choice.Raises?;
      StoresReadyStep(before, pages, choice);
      var session := new Session(world.tables, world.now);
      var documents := new DocumentRepository(session);
      var documentChunks := new DocumentChunkRepository(session);
      var moved := documents.TransitionStatusForUser(job.document, job.owner, Processing, Ready, None, None);
      if raises {
        Took(before, pages, StoringReady, choice, pages, Retrying(EmbedStage, ProcessingFailure));
        return Raised;
      }
      if !moved {
        Took(before, pages, StoringReady, choice, pages, Done(Returned(ClaimLost)));
        return Ended(false);
      }
      var marked := documentChunks.MarkEmbedded(job.document, job.owner, config.embedding);
      world.tables := session.tables;
      Took(before, pages, StoringReady, choice, pages, Done(Returned(BecameReady)));
      r := Ended(true);
    }

    lemma StoresReadyStep(s: State, pages: Option<nat>, choice: Choice)
      requires From(s, pages, StoringReady)
      ensures var tx := Pipeline.StoreReady(s.tables, s.now, job, config);
              var raised := Retrying(EmbedStage, ProcessingFailure);
              if choice.Raises? then Goes(world.env, s, w, choice, s.tables, s.points, This(pages, raised))
              else Goes(world.env, s, w, choice, if tx.Committed? then tx.tables else s.tables, s.points,
                        This(pages, AfterTransaction(tx, Done(Returned(BecameReady)), raised)))
    {
      hide Goes, Pipeline.StoreReady, Run;
      StoresReady(world.env, s, w, choice);
    }

    // --- _run and ingest ---------------------------------------------------------------------------

    /** Where an exit leaves the delivery once its claim, if it took one, is put back. */
    function Out(exit: Exit): Pc {
      if exit.CancelledError? then Done(WasCancelled) else After(ParseStage, exit)
    }

    lemma ClaimsIs(pages: Option<nat>, stage: Stage)
      ensures IsCas(pages, Claiming(stage), StartsAt(stage), Processing, None, Entered(This(pages, Begin), stage),
                    Done(Returned(SkippedInProgress)), Uncaught())
    {
      hide MayCas;
      forall s: State, choice: Choice | Here(s, pages, Claiming(stage))
        ensures MayCas(world.env, s, w, choice, StartsAt(stage), Processing, None, Entered(This(pages, Begin), stage),
                       Done(Returned(SkippedInProgress)), Uncaught())
      {
        Claims(world.env, s, w, choice, stage);
      }
    }

    /** `_run` */
    method RunStage(target: Document, stage: Stage) returns (exit: Exit)
      requires target.mimeType == Some(job.mimeType) && job.document.parsed.Some?
      requires At(target.pageCount, Claiming(stage))
      modifies world
      ensures At(target.pageCount, Out(exit)) && old(world.history) <= world.history
      ensures Belongs(stage, exit)
      ensures finalAttempt ==> !exit.TransientIngestionError?
    {
      hide At, IsCas;
      var pages := target.pageCount;
      ClaimsIs(pages, stage);
      var claimed := TransitionStatus(pages, Claiming(stage), StartsAt(stage), Processing, None,
                                      Entered(This(pages, Begin), stage), Done(Returned(SkippedInProgress)), Uncaught());
      match claimed {
        case Ended(moved) =>
          if !moved {
            return Result(SkippedInProgress);
          }
        case Raised => return OtherException;
        case Cancelled => return CancelledError;
      }
      match stage {
        case ParseStage => exit := ProcessClaimed(target);
        case ChunkStage => exit := ChunkClaimed(pages);
        case EmbedStage => exit := EmbedClaimed(pages);
      }
      if exit.CancelledError? {
        ReleaseAfterInterruption(pages, stage);
      }
    }

    lemma BeginsStep(s: State, choice: Choice)
      requires From(s, None, Begin)
      ensures var derived := StorageKeyFor(job.owner, job.contentHash) == Some(job.storageKey);
              var pc := Admission(s.tables, job);
              var pages := if pc.Claiming? && Owned(s.tables, job.document, job.owner)
                           then s.tables[job.document.parsed.value].row.pageCount else None;
              if choice.Raises? && derived then Goes(world.env, s, w, choice, s.tables, s.points, This(None, Uncaught()))
              else Goes(world.env, s, w, choice, s.tables, s.points, This(pages, pc))
    {
      hide Goes, Run, Admission, StorageKeyFor, Owned;
      Begins(world.env, s, w, choice);
    }

    /** `ingest` */
    method Ingest() returns (exit: Exit, pages: Option<nat>)
      requires At(None, Begin)
      modifies world
      ensures At(pages, Out(exit)) && old(world.history) <= world.history
      ensures exit.Result? ==> exit.outcome != WasParsed && exit.outcome != WasChunked
      ensures finalAttempt ==> !exit.TransientIngestionError?
    {
      hide At;
      var admitted, target := Admit();
      if admitted.Some? {
        return admitted.value, None;
      }
      exit := RunFrom(target);
      pages := target.pageCount;
    }

    /** `ingest` up to its first stage: how it ends, or the row it goes on with. */
    method Admit() returns (over: Option<Exit>, target: Document)
      requires At(None, Begin)
      modifies world
      ensures old(world.history) <= world.history
      ensures over.Some? ==> At(None, Out(over.value)) && !over.value.TransientIngestionError?
      ensures over.Some? && over.value.Result? ==> over.value.outcome.WasRejected? || over.value.outcome.SkippedInProgress?
                                                   || over.value.outcome.SkippedTerminal?
      ensures over.None? ==>
                && target.mimeType == Some(job.mimeType) && job.document.parsed.Some?
                && At(target.pageCount, FirstClaim(target.status))
                && (target.status == Pending || target.status == Parsed || target.status == Chunked)
    {
      hide At, From, Run, Goes, Admission, Owned, FirstClaim;
      target := Document(0, Pending, None, 0, None, None, None, None, 0, false);
      var derived := StorageKeyFor(job.owner, job.contentHash);
      var cancelled := Wait(None, Begin, derived != Some(job.storageKey));
      if cancelled {
        return Some(CancelledError), target;
      }
      ghost var before := world.Now();
      var choice := world.oracle(world.moments);
      RefusesForgedKey(before, choice);
      if derived.None? {
        Took(before, None, Begin, choice, None, Done(Returned(WasRejected(InvalidJob))));
        return Some(Result(WasRejected(InvalidJob))), target;
      }
      if derived.value != job.storageKey {
        Took(before, None, Begin, choice, None, Done(Returned(WasRejected(StorageKeyMismatch))));
        return Some(Result(WasRejected(StorageKeyMismatch))), target;
      }
      if choice.Raises? {
        BeginsStep(before, choice);
        Took(before, None, Begin, choice, None, Uncaught());
        return Some(OtherException), target;
      }
      over, target := CheckRow();
    }

    lemma RefusesForgedKey(s: State, choice: Choice)
      requires From(s, None, Begin)
      ensures StorageKeyFor(job.owner, job.contentHash) != Some(job.storageKey) ==>
                var reason := if StorageKeyFor(job.owner, job.contentHash).None? then InvalidJob else StorageKeyMismatch;
                Goes(world.env, s, w, choice, s.tables, s.points, This(None, Done(Returned(WasRejected(reason)))))
    {
      hide Goes, Run, Owned;
      BeginsStep(s, choice);
    }

    /** `ingest`, once the job's own parts agree: its row, and whether the job agrees with that. */
    method CheckRow() returns (over: Option<Exit>, target: Document)
      requires From(world.Now(), None, Begin) && StorageKeyFor(job.owner, job.contentHash) == Some(job.storageKey)
      requires !world.oracle(world.moments).Raises?
      modifies world`deliveries, world`history, world`moments
      ensures old(world.history) <= world.history
      ensures over.Some? ==> At(None, Out(over.value)) && over.value.Result?
      ensures over.Some? && over.value.Result? ==> over.value.outcome.WasRejected? || over.value.outcome.SkippedInProgress?
                                                   || over.value.outcome.SkippedTerminal?
      ensures over.None? ==>
                && target.mimeType == Some(job.mimeType) && job.document.parsed.Some?
                && At(target.pageCount, FirstClaim(target.status))
                && (target.status == Pending || target.status == Parsed || target.status == Chunked)
    {
      hide At, From, Run, Goes, StorageKeyFor;
      ghost var before := world.Now();
      ghost var choice := world.oracle(world.moments);
      BeginsStep(before, choice);
      var session := new Session(world.tables, world.now);
      var documents := new DocumentRepository(session);
      var found := documents.GetIngestionTargetForUser(job.document, job.owner);
      target := Document(0, Pending, None, 0, None, None, None, None, 0, false);
      if found.None? {
        var exists_ := documents.LiveDocumentExists(job.document);
        var reason := if exists_ then OwnershipMismatch else DocumentNotFound;
        Took(before, None, Begin, choice, None, Done(Returned(WasRejected(reason))));
        return Some(Result(WasRejected(reason))), target;
      }
      target := found.value;
      var mismatch := JobDisagreesWith(job, target);
      if mismatch.Some? {
        Took(before, None, Begin, choice, None, Done(Returned(WasRejected(mismatch.value))));
        return Some(Result(WasRejected(mismatch.value))), target;
      }
      if target.status == Processing {
        Took(before, None, Begin, choice, None, Done(Returned(SkippedInProgress)));
        return Some(Result(SkippedInProgress)), target;
      }
      if target.status == Ready || target.status == Failed {
        Took(before, None, Begin, choice, None, Done(Returned(SkippedTerminal)));
        return Some(Result(SkippedTerminal)), target;
      }
      Took(before, None, Begin, choice, target.pageCount, FirstClaim(target.status));
      over := None;
    }

    function FirstClaim(status: Status): Pc {
      Claiming(if status == Pending then ParseStage else if status == Parsed then ChunkStage else EmbedStage)
    }

    /** `ingest`, stage after stage. */
    method RunFrom(target: Document) returns (exit: Exit)
      requires target.mimeType == Some(job.mimeType) && job.document.parsed.Some?
      requires At(target.pageCount, FirstClaim(target.status))
      requires target.status == Pending || target.status == Parsed || target.status == Chunked
      modifies world
      ensures At(target.pageCount, Out(exit)) && old(world.history) <= world.history
      ensures exit.Result? ==> exit.outcome != WasParsed && exit.outcome != WasChunked
      ensures finalAttempt ==> !exit.TransientIngestionError?
    {
      hide At;
      if target.status == Pending {
        exit := RunStage(target, ParseStage);
        if exit != Result(WasParsed) {
          return;
        }
      }
      if target.status != Chunked {
        exit := RunStage(target, ChunkStage);
        if exit != Result(WasChunked) {
          return;
        }
      }
      exit := RunStage(target, EmbedStage);
    }

    // --- giving up ---------------------------------------------------------------------------------

    lemma GivesUpIs(pages: Option<nat>, tried: nat, claimed: bool)
      ensures IsCas(pages, GivingUp(tried, claimed), Recoverable(tried), Processing, None, AfterTry(tried, true),
                    AfterTry(tried, claimed), Done(RaisedError))
    {
      hide MayCas;
      forall s: State, choice: Choice | Here(s, pages, GivingUp(tried, claimed))
        ensures MayCas(world.env, s, w, choice, Recoverable(tried), Processing, None, AfterTry(tried, true),
                       AfterTry(tried, claimed), Done(RaisedError))
      {
        GivesUp(world.env, s, w, choice, tried, claimed);
      }
    }

    lemma RecordsGivenUpIs(pages: Option<nat>, claimed: bool)
      ensures IsCas(pages, RecordingGivenUp(claimed), Processing, Failed, Some(ProcessingFailure),
                    Done(RaisedError), Done(RaisedError), Done(RaisedError))
    {
      hide MayCas;
      forall s: State, choice: Choice | Here(s, pages, RecordingGivenUp(claimed))
        ensures MayCas(world.env, s, w, choice, Processing, Failed, Some(ProcessingFailure),
                       Done(RaisedError), Done(RaisedError), Done(RaisedError))
      {
        RecordsGivenUp(world.env, s, w, choice, claimed);
      }
    }

    lemma ChecksProcessingStep(s: State, pages: Option<nat>, choice: Choice)
      requires From(s, pages, CheckingProcessing)
      ensures Passes(world.env, s, w, choice,
                     if !choice.Raises? && Matches(s.tables, job.document, job.owner, Processing)
                     then RecordingGivenUp(false) else Done(RaisedError))
    {
      hide Passes, Run, Matches;
      ChecksProcessing(world.env, s, w, choice);
    }

    /** Tries to claim the document from each recoverable status in turn, all three, whichever matches. */
    method ClaimToGiveUp(pages: Option<nat>) returns (r: Ending)
      requires At(pages, GivingUp(0, false))
      modifies world
      ensures old(world.history) <= world.history
      ensures At(pages, match r
                        case Ended(claimed) => if claimed then RecordingGivenUp(true) else CheckingProcessing
                        case Raised => Done(RaisedError)
                        case Cancelled => Done(WasCancelled))
    {
      hide At, IsCas;
      var claimed := false;
      for tried := 0 to 3
        invariant At(pages, if tried == 0 then GivingUp(0, claimed) else AfterTry(tried - 1, claimed))
        invariant old(world.history) <= world.history
      {
        GivesUpIs(pages, tried, claimed);
        var moved := TransitionStatus(pages, GivingUp(tried, claimed), Recoverable(tried), Processing, None,
                                      AfterTry(tried, true), AfterTry(tried, claimed), Done(RaisedError));
        if !moved.Ended? {
          return moved;
        }
        claimed := claimed || moved.moved;
      }
      r := Ended(claimed);
    }

    /** `_is_processing` */
    method IsProcessing(pages: Option<nat>) returns (r: Ending)
      requires At(pages, CheckingProcessing)
      modifies world
      ensures old(world.history) <= world.history
      ensures At(pages, match r
                        case Ended(processing) => if processing then RecordingGivenUp(false) else Done(RaisedError)
                        case Raised => Done(RaisedError)
                        case Cancelled => Done(WasCancelled))
    {
      hide At, From, Passes;
      var cancelled := Wait(pages, CheckingProcessing);
      if cancelled {
        return Cancelled;
      }
      ghost var checking := world.Now();
      var choice := world.oracle(world.moments);
      var raises := choice.Raises?;
      ChecksProcessingStep(checking, pages, choice);
      if raises {
        Pass(checking, pages, CheckingProcessing, choice, Done(RaisedError));
        return Raised;
      }
      var session := new Session(world.tables, world.now);
      var documents := new DocumentRepository(session);
      var target := documents.GetIngestionTargetForUser(job.document, job.owner);
      var processing := target.Some? && target.value.status == Processing;
      Pass(checking, pages, CheckingProcessing, choice,
           if processing then RecordingGivenUp(false) else Done(RaisedError));
      r := Ended(processing);
    }

    /** `record_given_up`: whether a failure was recorded, or why that is not known. */
    method RecordGivenUp(pages: Option<nat>) returns (r: Ending)
      requires At(pages, GivingUp(0, false))
      modifies world
      ensures At(pages, Done(if r.Cancelled? then WasCancelled else RaisedError))
      ensures old(world.history) <= world.history
    {
      hide At, IsCas;
      r := ClaimToGiveUp(pages);
      if !r.Ended? {
        return;
      }
      var claimed := r.moved;
      if !claimed {
        r := IsProcessing(pages);
        if r != Ended(true) {
          return;
        }
      }
      RecordsGivenUpIs(pages, claimed);
      r := TransitionStatus(pages, RecordingGivenUp(claimed), Processing, Failed, Some(ProcessingFailure),
                            Done(RaisedError), Done(RaisedError), Done(RaisedError));
    }
  }
}
