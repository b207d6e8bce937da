/** The worker: attempts, retries, the reaper and the recovery sweep. */
module Workers {
  import opened Identifiers
  import opened Tables
  import opened VectorIndex
  import opened Pipeline
  import opened PipelineInvariant
  import opened PipelineTheorems
  import opened PipelineSafety
  import opened Repositories
  import opened Worlds
  import opened IngestionServices

  const RETRY_DELAYS_SECONDS: seq<nat> := [2, 10, 30, 60]

  /** `retry_delay_seconds`: the listed delays in turn, the first for anything earlier and the last for anything later. */
  function RetryDelaySeconds(attempt: int): (delay: nat)
    ensures attempt <= 1 ==> delay == 2
    ensures attempt == 2 ==> delay == 10
    ensures attempt == 3 ==> delay == 30
    ensures attempt >= 4 ==> delay == 60
    ensures attempt > 1 ==> RetryDelaySeconds(attempt - 1) <= delay
    decreases attempt
  {
    var first := if attempt > 1 then attempt else 1;
    RETRY_DELAYS_SECONDS[(if first < |RETRY_DELAYS_SECONDS| then first else |RETRY_DELAYS_SECONDS|) - 1]
  }

  /** How the worker's job ends. */
  datatype JobExit = Finished(outcome: Outcome) | Retry(defer: nat) | JobRaised | JobCancelled

  /** Where a job's exit leaves its delivery. */
  predicate LeavesAt(exit: JobExit, pc: Pc) {
    match exit
    case Finished(outcome) => pc == Done(Returned(outcome))
    case Retry(_) => pc == Done(RaisedError) || (pc.Done? && pc.verdict.RaisedTransient?)
    case JobRaised => pc == Done(RaisedError)
    case JobCancelled => pc == Done(WasCancelled)
  }

  /** What a document is once a delivery reports it ready. */
  ghost predicate MadeReady(env: Env, s: State, job: Job, config: Config) {
    && job.document.parsed.Some? && job.document.parsed.value in s.tables
    && var x := job.document.parsed.value;
    && var e := s.tables[x];
    && e.row.status == Ready
    && e.pages == env.extract(job.contentHash)
    && e.chunks == FinalChunks(env, job.contentHash, config)
    && ExactlyIndexed(env, x, e.row.owner, e.chunks, config.embedding, s.points)
  }

  lemma {:induction false} ReadyIsMade(env: Env, events: seq<Event>, s: State, w: nat)
    requires s == Run(env, Empty, events) && w in s.deliveries && s.deliveries[w].pc == Done(Returned(BecameReady))
    ensures GoodEnv(env) && AlikeJobs(env, events) ==>
              MadeReady(env, s, s.deliveries[w].job, s.deliveries[w].config)
  {
    hide Run, ExactlyIndexed, FinalChunks;
    if GoodEnv(env) && AlikeJobs(env, events) {
      SuccessDeterminesTheData(env, events, s, w);
    }
  }

  /**
   `ingest_document`. A payload that is no job is rejected and touches nothing. A retry follows only an
   attempt that is not the last; a job that reports `ready` has made its document exactly that, as long as
   the jobs delivered have spelt each document's id alike.
   */
  method IngestDocument(world: World, w: nat, payload: Option<Job>, config: Config, attempt: nat, maxTries: nat)
    returns (exit: JobExit)
    requires world.Valid() && w !in world.deliveries
    modifies world
    ensures world.Valid() && old(world.history) <= world.history
    ensures payload.None? ==> exit == Finished(WasRejected(InvalidJob)) && world.Now() == old(world.Now())
    ensures payload.Some? ==>
              && w in world.deliveries
              && world.deliveries[w].job == payload.value && world.deliveries[w].config == config
              && world.deliveries[w].finalAttempt == (attempt >= maxTries)
              && LeavesAt(exit, world.deliveries[w].pc)
    ensures exit.Retry? ==> attempt < maxTries && exit.defer == RetryDelaySeconds(attempt)
    ensures exit.JobRaised? ==> attempt >= maxTries
    ensures exit == Finished(BecameReady) && GoodEnv(world.env) && AlikeJobs(world.env, world.history) ==>
              MadeReady(world.env, world.Now(), payload.value, config)
  {
    hide Run, GoodEnv, AlikeJobs, MadeReady, RetryDelaySeconds;
    if payload.None? {
      return Finished(WasRejected(InvalidJob));
    }
    var finalAttempt := attempt >= maxTries;
    world.Deliver(w, payload.value, config, finalAttempt);
    var service := new IngestionService(world, w);
    var result, pages := service.Ingest();
    match result {
      case Result(outcome) =>
        exit := Finished(outcome);
        if outcome == BecameReady {
          ReadyIsMade(world.env, world.history, world.Now(), w);
        }
      case TransientIngestionError(_, _) => exit := Retry(RetryDelaySeconds(attempt));
      case CancelledError => exit := JobCancelled;
      case OtherException =>
        if finalAttempt {
          var recorded := service.RecordGivenUp(pages);
          exit := if recorded.Cancelled? then JobCancelled else JobRaised;
        } else {
          exit := Retry(RetryDelaySeconds(attempt));
        }
    }
  }

  /** `reap_stale_processing`: exactly the live claims untouched for longer than the threshold. */
  method ReapStaleProcessing(world: World, staleAfter: nat) returns (reaped: set<Uuid>)
    requires world.Valid()
    modifies world`tables, world`history, world`moments
    ensures world.Valid() && world.history == old(world.history) + [Reap(staleAfter)]
    ensures world.tables.Keys == old(world.tables).Keys
    ensures forall x | x in world.tables ::
              var e := old(world.tables)[x];
              && world.tables[x].pages == e.pages && world.tables[x].chunks == e.chunks
              && (x in reaped <==> e.row.status == Processing && !e.row.deleted
                                   && world.now - e.row.updatedAt > staleAfter)
              && world.tables[x].row == if x in reaped
                                        then e.row.(status := Failed, failureReason := Some(StaleProcessing),
                                                    updatedAt := world.now)
                                        else e.row
  {
    hide Run;
    ghost var before := world.Now();
    var session := new Session(world.tables, world.now);
    var documents := new DocumentRepository(session);
    reaped := documents.FailStaleProcessing(staleAfter);
    OneMore(world.env, world.history, Reap(staleAfter));
    world.tables := session.tables;
    world.history, world.moments := world.history + [Reap(staleAfter)], world.moments + 1;
  }
}
