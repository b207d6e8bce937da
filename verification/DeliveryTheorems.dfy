/** What one delivery promises: how it settles, what it may touch, and what may fail it. */
module DeliveryTheorems {
  import opened Identifiers
  import opened Text
  import opened Tables
  import opened VectorIndex
  import opened Pipeline
  import opened PipelineInvariant
  import opened PipelineSteps
  import opened PipelineSafety
  import opened PipelineProgress
  import opened PipelineAlone
  import opened PipelineTheorems

  // --- settling -------------------------------------------------------------------------

  /** A delivery just handed a job whose live row it agrees with and nobody holds. */
  predicate Fresh(s: State, w: nat) {
    && w in s.deliveries && s.deliveries[w].pc == Begin
    && Agreed(s.tables, s.deliveries[w].job)
    && s.tables[s.deliveries[w].job.document.parsed.value].row.status != Processing
  }

  /**
   A delivery without interference ends within twenty calls. A final attempt ends in `ready` or
   `failed`: it never raises the transient error and never leaves a status the sweep would requeue. An
   attempt that is not final and raises the transient error has put its document back exactly where
   the failing stage started.
   */
  lemma {:induction false} AnAttemptSettles(env: Env, events: seq<Event>, s: State, w: nat, choices: seq<Choice>)
    requires Reached(env, events, s) && Fresh(s, w)
    requires Declared(env, s, w, choices) && |choices| >= 20
    ensures var r := Alone(env, s, w, choices);
            && Inv(env, r)
            && Agreed(r.tables, s.deliveries[w].job)
            && r.deliveries[w].pc.Done?
            && var status := r.tables[s.deliveries[w].job.document.parsed.value].row.status;
            match r.deliveries[w].pc.verdict
            case Returned(BecameReady) => status == Ready
            case Returned(HasFailed(_)) => status == Failed
            case Returned(SkippedTerminal) => status == Ready || status == Failed
            case RaisedTransient(stage, _) => status == StartsAt(stage) && !s.deliveries[w].finalAttempt
            case _ => false
  {
    hide Inv, Alone, Declared, Run, AlikeJobs;
    ReachedInv(env, events, s);
    AloneSettles(env, s, w, choices);
  }

  // --- the delivery that meets no fault -----------------------------------------------------

  /** The document can be processed under this configuration. */
  predicate Sound(env: Env, d: Delivery, row: Document) {
    var pages := env.extract(d.job.contentHash);
    && d.job.mimeType == Pdf
    && (row.pageCount.Some? ==> row.pageCount.value == |pages| <= d.config.maxPages)
    && (exists i | 0 <= i < |pages| :: pages[i].blocks != [])
    && env.chunk(d.config.version, pages) != []
  }

  /** On the way to `ready`. */
  predicate OnTrack(pc: Pc) {
    && !pc.Failing? && !pc.Releasing?
    && (pc.Done? ==> pc == Done(Returned(BecameReady)))
  }

  lemma ParsesCleanly(env: Env, s: State, w: nat)
    requires Inv(env, s) && InStep(s, w)
    requires Sound(env, s.deliveries[w], s.tables[s.deliveries[w].job.document.parsed.value].row)
    requires s.deliveries[w].pc.Fetching? || s.deliveries[w].pc.Extracting? || s.deliveries[w].pc.StoringParsed?
    ensures OnTrack(ParseStep(env, s, w, Succeeds).deliveries[w].pc)
  {
    hide Inv, DeliveryOk, StoreParsed;
    HolderBasics(env, s, w);
    var d := s.deliveries[w];
    if d.pc.StoringParsed? {
      StoreParsedIs(s.tables, s.now, d.job, d.pc.extracted);
    }
  }

  lemma ChunksCleanly(env: Env, s: State, w: nat)
    requires Inv(env, s) && InStep(s, w)
    requires Sound(env, s.deliveries[w], s.tables[s.deliveries[w].job.document.parsed.value].row)
    requires s.deliveries[w].pc.ReadingPages? || s.deliveries[w].pc.MakingChunks? || s.deliveries[w].pc.StoringChunks?
    ensures OnTrack(ChunkStep(env, s, w, Succeeds).deliveries[w].pc)
  {
    hide Inv, DeliveryOk, StoreChunks;
    HolderFacts(env, s, w);
    var d := s.deliveries[w];
    if d.pc.StoringChunks? {
      StoreChunksIs(s.tables, s.now, d.job, d.config, d.pc.made);
    }
  }

  lemma RechunksCleanly(env: Env, s: State, w: nat)
    requires Inv(env, s) && InStep(s, w)
    requires Sound(env, s.deliveries[w], s.tables[s.deliveries[w].job.document.parsed.value].row)
    requires s.deliveries[w].pc.ReadingPagesAgain? || s.deliveries[w].pc.RemakingChunks?
             || s.deliveries[w].pc.DeletingVectors? || s.deliveries[w].pc.ReplacingChunks?
    ensures OnTrack(RechunkStep(env, s, w, Succeeds).deliveries[w].pc)
  {
    hide Inv, DeliveryOk, ReplaceChunks, WithoutDocument;
    HolderFacts(env, s, w);
    var d := s.deliveries[w];
    if d.pc.ReplacingChunks? {
      ReplaceChunksIs(s.tables, s.now, d.job, d.config, d.pc.made);
    }
  }

  lemma EmbedsCleanly(env: Env, s: State, w: nat)
    requires Inv(env, s) && InStep(s, w)
    requires s.deliveries[w].pc.CheckingProvenance? || s.deliveries[w].pc.ListingChunks?
             || s.deliveries[w].pc.EmbeddingText? || s.deliveries[w].pc.Upserting? || s.deliveries[w].pc.StoringReady?
    ensures OnTrack(EmbedStep(env, s, w, Succeeds).deliveries[w].pc)
  {
    hide Inv, DeliveryOk, StoreReady, Provenance, RecordsFor;
    HolderBasics(env, s, w);
    var d := s.deliveries[w];
    if d.pc.StoringReady? {
      StoreReadyIs(s.tables, s.now, d.job, d.config);
    } else if d.pc.CheckingProvenance? {
      ProvenanceIs(env, s, w);
    }
  }

  lemma ClaimsCleanly(env: Env, s: State, w: nat)
    requires InStep(s, w)
    requires Sound(env, s.deliveries[w], s.tables[s.deliveries[w].job.document.parsed.value].row)
    requires s.deliveries[w].pc.Begin? || s.deliveries[w].pc.Claiming?
    requires s.deliveries[w].pc.Begin? ==>
               var status := s.tables[s.deliveries[w].job.document.parsed.value].row.status;
               status == Pending || status == Parsed || status == Chunked
    requires s.deliveries[w].pc.Claiming? ==>
               s.deliveries[w].pageCount == s.tables[s.deliveries[w].job.document.parsed.value].row.pageCount
    ensures OnTrack(ClaimStep(s, w, Succeeds).deliveries[w].pc)
  {
  }

  lemma StepsCleanly(env: Env, s: State, w: nat)
    requires Inv(env, s) && InStep(s, w) && OnTrack(s.deliveries[w].pc)
    requires Sound(env, s.deliveries[w], s.tables[s.deliveries[w].job.document.parsed.value].row)
    requires s.deliveries[w].pc.Begin? ==>
               var status := s.tables[s.deliveries[w].job.document.parsed.value].row.status;
               status == Pending || status == Parsed || status == Chunked
    requires w in StepDelivery(env, s, w, Succeeds).deliveries
    ensures OnTrack(StepDelivery(env, s, w, Succeeds).deliveries[w].pc)
  {
    hide Inv, ParseStep, ChunkStep, RechunkStep, EmbedStep, ClaimStep, Sound, Agreed;
    match s.deliveries[w].pc {
      case Fetching => ParsesCleanly(env, s, w);
      case Extracting => ParsesCleanly(env, s, w);
      case StoringParsed(_) => ParsesCleanly(env, s, w);
      case ReadingPages => ChunksCleanly(env, s, w);
      case MakingChunks(_) => ChunksCleanly(env, s, w);
      case StoringChunks(_) => ChunksCleanly(env, s, w);
      case ReadingPagesAgain => RechunksCleanly(env, s, w);
      case RemakingChunks(_) => RechunksCleanly(env, s, w);
      case DeletingVectors(_) => RechunksCleanly(env, s, w);
      case ReplacingChunks(_) => RechunksCleanly(env, s, w);
      case CheckingProvenance => EmbedsCleanly(env, s, w);
      case ListingChunks => EmbedsCleanly(env, s, w);
      case EmbeddingText(_) => EmbedsCleanly(env, s, w);
      case Upserting(_) => EmbedsCleanly(env, s, w);
      case StoringReady => EmbedsCleanly(env, s, w);
      case Begin => ClaimsCleanly(env, s, w);
      case Claiming(_) =>
        AdmittedFacts(env, s, w);
        ClaimsCleanly(env, s, w);
      case _ =>
    }
  }

  function Successes(n: nat): (choices: seq<Choice>)
    ensures |choices| == n
  {
    seq(n, i => Succeeds)
  }

  lemma FreshIsInStep(s: State, w: nat)
    requires Fresh(s, w)
    ensures InStep(s, w)
  {
  }

  lemma InStepAgrees(s: State, w: nat)
    requires InStep(s, w)
    ensures Agreed(s.tables, s.deliveries[w].job)
  {
  }

  lemma {:induction false} StaysOnTrack(env: Env, s: State, w: nat, n: nat)
    requires GoodEnv(env) && Inv(env, s) && Fresh(s, w)
    requires Sound(env, s.deliveries[w], s.tables[s.deliveries[w].job.document.parsed.value].row)
    requires var status := s.tables[s.deliveries[w].job.document.parsed.value].row.status;
             status == Pending || status == Parsed || status == Chunked
    ensures var r := Alone(env, s, w, Successes(n));
            && Inv(env, r) && InStep(r, w) && OnTrack(r.deliveries[w].pc)
            && (n > 0 ==> !r.deliveries[w].pc.Begin?)
            && r.deliveries[w].job == s.deliveries[w].job && r.deliveries[w].config == s.deliveries[w].config
            && TablesAdvance(s.tables, r.tables)
  {
    hide Inv, StepDelivery, Fitting, Agreed, TablesAdvance, Sound;
    if n > 0 {
      StaysOnTrack(env, s, w, n - 1);
      var before := Alone(env, s, w, Successes(n - 1));
      assert Successes(n)[..n - 1] == Successes(n - 1);
      StepAlone(env, before, w, Succeeds);
      StepInv(env, before, w, Succeeds);
      KeepsDeliveries(env, before, w, Succeeds);
      StepAdvances(env, before, w, Succeeds);
      AdvancesTransitively(s.tables, before.tables, Alone(env, s, w, Successes(n)).tables);
      SoundStays(env, s, before, w);
      StepsCleanly(env, before, w);
    } else {
      SameAdvances(s.tables);
      FreshIsInStep(s, w);
    }
  }

  lemma SoundStays(env: Env, s: State, r: State, w: nat)
    requires w in s.deliveries && w in r.deliveries && Agreed(s.tables, s.deliveries[w].job)
    requires r.deliveries[w].job == s.deliveries[w].job && r.deliveries[w].config == s.deliveries[w].config
    requires TablesAdvance(s.tables, r.tables)
    requires Sound(env, s.deliveries[w], s.tables[s.deliveries[w].job.document.parsed.value].row)
    ensures s.deliveries[w].job.document.parsed.value in r.tables
    ensures Sound(env, r.deliveries[w], r.tables[s.deliveries[w].job.document.parsed.value].row)
  {
  }

  function StepsOf(w: nat, choices: seq<Choice>): (events: seq<Event>)
    ensures |events| == |choices|
  {
    seq(|choices|, i requires 0 <= i < |choices| => Step(w, choices[i]))
  }

  /** A delivery on its own is one of the runs. */
  lemma {:induction false} AloneIsARun(env: Env, s: State, w: nat, choices: seq<Choice>)
    requires w in s.deliveries
    ensures Run(env, s, StepsOf(w, choices)) == Alone(env, s, w, choices)
    decreases |choices|
  {
    hide StepDelivery;
    if choices != [] {
      var front := choices[..|choices| - 1];
      AloneIsARun(env, s, w, front);
      assert StepsOf(w, choices)[..|choices| - 1] == StepsOf(w, front);
    }
  }

  /**
   Convergence. Take any reachable state, after any failed, cancelled or killed deliveries under any
   versions, in which the document is live, at rest short of the end, and sound. One delivery that
   meets no fault then makes it `ready`, with the same pages, chunks and points as if nothing had
   happened before.
   */
  lemma {:induction false} SuccessfulDeliveryConverges(env: Env, events: seq<Event>, s: State, w: nat)
    requires Reached(env, events, s) && Fresh(s, w)
    requires Sound(env, s.deliveries[w], s.tables[s.deliveries[w].job.document.parsed.value].row)
    requires var status := s.tables[s.deliveries[w].job.document.parsed.value].row.status;
             status == Pending || status == Parsed || status == Chunked
    ensures var r := Alone(env, s, w, Successes(20));
            var d := s.deliveries[w];
            var x := d.job.document.parsed.value;
            && r.deliveries[w].pc == Done(Returned(BecameReady))
            && Agreed(r.tables, d.job)
            && x in r.tables && r.tables[x].row.status == Ready
            && r.tables[x].pages == env.extract(d.job.contentHash)
            && r.tables[x].chunks == FinalChunks(env, d.job.contentHash, d.config)
            && ExactlyIndexed(env, x, r.tables[x].row.owner, r.tables[x].chunks, d.config.embedding, r.points)
  {
    hide Inv, StepDelivery, Sound, Agreed, ExactlyIndexed, FinalChunks, Run, Alone, InStep;
    ReachedInv(env, events, s);
    FreshIsInStep(s, w);
    var choices := Successes(20);
    StaysOnTrack(env, s, w, 20);
    assert Declared(env, s, w, choices);
    AloneSettles(env, s, w, choices);
    var r := Alone(env, s, w, choices);
    InStepAgrees(r, w);
    AloneIsARun(env, s, w, choices);
    RunGoesOn(env, Empty, events, StepsOf(w, choices));
    assert AlikeJobs(env, events + StepsOf(w, choices));
    SuccessDeterminesTheData(env, events + StepsOf(w, choices), r, w);
  }

  // --- the retries of one job ---------------------------------------------------------------

  /** One attempt: what others do before it, its delivery and configuration, and what its calls do. */
  datatype Attempt = Attempt(others: seq<Event>, delivery: nat, config: Config, choices: seq<Choice>)

  /** The state attempt `k` starts from: its job just handed over, as the last one if no other is planned. */
  function Begun(env: Env, s: State, job: Job, plan: seq<Attempt>, k: nat): (r: State)
    requires k < |plan|
    ensures plan[k].delivery in r.deliveries
    decreases k, 1
  {
    var before := AfterAttempts(env, s, job, plan, k);
    Apply(env, Run(env, before, plan[k].others), Deliver(plan[k].delivery, job, plan[k].config, k + 1 == |plan|))
  }

  /** The state after the first `n` attempts. */
  function AfterAttempts(env: Env, s: State, job: Job, plan: seq<Attempt>, n: nat): (r: State)
    requires n <= |plan|
    ensures n > 0 ==> plan[n - 1].delivery in r.deliveries
    decreases n, 0
  {
    if n == 0 then s
    else Alone(env, Begun(env, s, job, plan, n - 1), plan[n - 1].delivery, plan[n - 1].choices)
  }

  /** Attempt `k` raised the transient error, which is what the worker tries again after. */
  predicate AsksForRetry(env: Env, s: State, job: Job, plan: seq<Attempt>, k: nat)
    requires k < |plan|
  {
    var pc := AfterAttempts(env, s, job, plan, k + 1).deliveries[plan[k].delivery].pc;
    pc.Done? && pc.verdict.RaisedTransient?
  }

  /**
   Before attempt `k` others may do anything that leaves the document live and unclaimed when it starts.
   During it nobody interferes, and no call raises what the service does not expect of it.
   */
  ghost predicate Undisturbed(env: Env, s: State, job: Job, plan: seq<Attempt>, k: nat)
    requires k < |plan|
  {
    var begun, w := Begun(env, s, job, plan, k), plan[k].delivery;
    && AlikeJobs(env, plan[k].others)
    && w !in Run(env, AfterAttempts(env, s, job, plan, k), plan[k].others).deliveries
    && Fresh(begun, w) && Declared(env, begun, w, plan[k].choices) && |plan[k].choices| >= 20
  }

  /** An attempt goes on from a reached state to another. */
  lemma AttemptIsReached(env: Env, events: seq<Event>, s: State, job: Job, plan: seq<Attempt>, k: nat)
    returns (ran: seq<Event>)
    requires k < |plan| && AlikeJobs(env, plan[k].others) && SpellsAlike(env, job)
    requires Reached(env, events, AfterAttempts(env, s, job, plan, k))
    ensures Reached(env, events + ran, Begun(env, s, job, plan, k))
    ensures Reached(env, events + ran + StepsOf(plan[k].delivery, plan[k].choices), AfterAttempts(env, s, job, plan, k + 1))
  {
    hide GoodEnv, StepDelivery, Apply, SpellsAlike;
    var one, before := plan[k], AfterAttempts(env, s, job, plan, k);
    var deliver := Deliver(one.delivery, job, one.config, k + 1 == |plan|);
    ran := one.others + [deliver];
    RunGoesOn(env, before, one.others, [deliver]);
    assert [deliver][..0] == [];
    RunGoesOn(env, Empty, events, ran);
    AloneIsARun(env, Begun(env, s, job, plan, k), one.delivery, one.choices);
    RunGoesOn(env, Empty, events + ran, StepsOf(one.delivery, one.choices));
  }

  lemma {:induction false} AttemptsAreReached(env: Env, events: seq<Event>, s: State, job: Job, plan: seq<Attempt>, n: nat)
    returns (ran: seq<Event>)
    requires Reached(env, events, s) && SpellsAlike(env, job)
    requires n <= |plan| && forall k | 0 <= k < n :: Undisturbed(env, s, job, plan, k)
    ensures Reached(env, events + ran, AfterAttempts(env, s, job, plan, n))
    decreases n
  {
    hide Reached, Begun, Fresh, Declared, AlikeJobs, SpellsAlike;
    if n == 0 {
      ran := [];
      assert events + ran == events;
    } else {
      var before := AttemptsAreReached(env, events, s, job, plan, n - 1);
      assert Undisturbed(env, s, job, plan, n - 1);
      var handed := AttemptIsReached(env, events + before, s, job, plan, n - 1);
      ran := before + handed + StepsOf(plan[n - 1].delivery, plan[n - 1].choices);
      assert events + ran == events + before + handed + StepsOf(plan[n - 1].delivery, plan[n - 1].choices);
    }
  }

  /**
   The retry protocol. From any reachable state, take a job whose attempts nothing disturbs, whose calls fail
   only as declared, and which is tried until an attempt does not ask for a retry or is the last one planned.
   It ends with its document `ready` or `failed`, in one of the runs, however many attempts fail: no document
   is left for a retry that will not come.
   */
  lemma RetriesSettle(env: Env, events: seq<Event>, s: State, job: Job, plan: seq<Attempt>, n: nat)
    returns (ran: seq<Event>)
    requires Reached(env, events, s) && SpellsAlike(env, job)
    requires 0 < n <= |plan| && forall k | 0 <= k < n :: Undisturbed(env, s, job, plan, k)
    requires n < |plan| ==> !AsksForRetry(env, s, job, plan, n - 1)
    ensures var r := AfterAttempts(env, s, job, plan, n);
            && Reached(env, events + ran, r)
            && Agreed(r.tables, job)
            && var status := r.tables[job.document.parsed.value].row.status;
            status == Ready || status == Failed
  {
    hide Reached, Alone, Declared, Agreed, Run, AlikeJobs, SpellsAlike;
    var k := n - 1;
    ran := AttemptsAreReached(env, events, s, job, plan, n);
    var before := AttemptsAreReached(env, events, s, job, plan, k);
    assert Undisturbed(env, s, job, plan, k);
    var handed := AttemptIsReached(env, events + before, s, job, plan, k);
    AnAttemptSettles(env, events + before + handed, Begun(env, s, job, plan, k), plan[k].delivery, plan[k].choices);
  }

  // --- which jobs are let in ---------------------------------------------------------------

  /** The job's parts agree: its key is the one its owner and its hash derive to. */
  predicate OwnKey(job: Job) {
    && job.owner.parsed.Some? && job.contentHash.Sha256?
    && job.storageKey == Key(job.owner.parsed.value, job.contentHash.digest)
  }

  /** The job and the row agree in every column. */
  predicate SameFacts(job: Job, row: Document) {
    && job.owner == RawId(Some(row.owner), 0) && row.contentHash == Some(job.contentHash)
    && row.storageKey == Some(job.storageKey) && row.mimeType == Some(job.mimeType)
  }

  /**
   A job starts a stage exactly if its parts agree, it names a live row of its owner, agrees with it in every
   column, and the row waits for that stage. It is skipped over a row that is claimed or finished.
   */
  lemma LetInIff(t: Tables, job: Job)
    ensures var x := job.document.parsed;
            var fits := && OwnKey(job) && x.Some? && x.value in t && !t[x.value].row.deleted
                        && SameFacts(job, t[x.value].row);
            && (Admission(t, job) == Claiming(ParseStage) <==> fits && t[x.value].row.status == Pending)
            && (Admission(t, job) == Claiming(ChunkStage) <==> fits && t[x.value].row.status == Parsed)
            && (Admission(t, job) == Claiming(EmbedStage) <==> fits && t[x.value].row.status == Chunked)
            && (Admission(t, job) == Done(Returned(SkippedInProgress)) <==> fits && t[x.value].row.status == Processing)
            && (Admission(t, job) == Done(Returned(SkippedTerminal)) <==>
                  fits && (t[x.value].row.status == Ready || t[x.value].row.status == Failed))
            && (!fits <==> exists reason :: Admission(t, job) == Done(Returned(WasRejected(reason))))
  {
    if Admission(t, job).Done? && Admission(t, job).verdict.Returned? && Admission(t, job).verdict.outcome.WasRejected? {
      assert Admission(t, job) == Done(Returned(WasRejected(Admission(t, job).verdict.outcome.reason)));
    }
  }

  /** Why a job is rejected: the first check it does not pass, in this order. */
  lemma RejectedBecause(t: Tables, job: Job, reason: Reason)
    requires Admission(t, job) == Done(Returned(WasRejected(reason)))
    ensures var x := job.document.parsed;
            var live := x.Some? && x.value in t && !t[x.value].row.deleted;
            if job.owner.parsed.None? || job.contentHash.NotSha256? then reason == InvalidJob
            else if !OwnKey(job) then reason == StorageKeyMismatch
            else if !live then reason == DocumentNotFound
            else if job.owner != RawId(Some(t[x.value].row.owner), 0) then reason == OwnershipMismatch
            else if t[x.value].row.contentHash != Some(job.contentHash) then reason == ContentHashMismatch
            else if t[x.value].row.storageKey != Some(job.storageKey) then reason == StorageKeyMismatch
            else reason == MimeTypeMismatch
  {
  }

  // --- what a delivery may touch -----------------------------------------------------------

  /** The delivery's job names this live row and its owner. */
  predicate Names(d: Delivery, x: Uuid, row: Document) {
    On(d, x) && d.job.owner.parsed == Some(row.owner)
  }

  predicate TablesConfined(t: Tables, u: Tables, d: Delivery) {
    u.Keys == t.Keys && forall y | y in t :: u[y] == t[y] || (Names(d, y, t[y].row) && !t[y].row.deleted)
  }

  /** Whether the store holds the same under this id. */
  predicate SamePoint(p: Points, q: Points, id: ChunkId) {
    (id in p <==> id in q) && (id in p ==> p[id] == q[id])
  }

  ghost predicate PointsConfined(t: Tables, p: Points, q: Points, d: Delivery) {
    forall id: ChunkId :: SamePoint(p, q, id) || (id.document in t && Names(d, id.document, t[id.document].row))
  }

  lemma StoringConfined(s: State, d: Delivery, pages: seq<Page>, chunks: seq<Text.Chunk>)
    ensures var t, now := s.tables, s.now;
            && (StoreParsed(t, now, d.job, pages).Committed? ==>
                  TablesConfined(t, StoreParsed(t, now, d.job, pages).tables, d))
            && (StoreChunks(t, now, d.job, d.config, chunks).Committed? ==>
                  TablesConfined(t, StoreChunks(t, now, d.job, d.config, chunks).tables, d))
  {
  }

  lemma ReplacingConfined(s: State, d: Delivery, chunks: seq<Text.Chunk>)
    ensures var t, now := s.tables, s.now;
            && (ReplaceChunks(t, now, d.job, d.config, chunks).Committed? ==>
                  TablesConfined(t, ReplaceChunks(t, now, d.job, d.config, chunks).tables, d))
            && (StoreReady(t, now, d.job, d.config).Committed? ==>
                  TablesConfined(t, StoreReady(t, now, d.job, d.config).tables, d))
  {
  }

  lemma CasConfined(s: State, w: nat, expected: Status, next: Status, reason: Option<Reason>, moved: Pc, lost: Pc)
    requires w in s.deliveries
    ensures var r := Cas(s, w, expected, next, reason, moved, lost);
            TablesConfined(s.tables, r.tables, s.deliveries[w]) && r.points == s.points
  {
  }

  lemma StagesConfined(env: Env, s: State, w: nat, choice: Choice)
    requires w in s.deliveries
    ensures TablesConfined(s.tables, ParseStep(env, s, w, choice).tables, s.deliveries[w])
    ensures TablesConfined(s.tables, ChunkStep(env, s, w, choice).tables, s.deliveries[w])
    ensures ParseStep(env, s, w, choice).points == s.points == ChunkStep(env, s, w, choice).points
  {
    hide TablesConfined, StoreParsed, StoreChunks, Transient, Unclassified, HasText, ListPages;
    var d := s.deliveries[w];
    SameConfined(s.tables, d);
    match d.pc {
      case StoringParsed(pages) => StoringConfined(s, d, pages, []);
      case StoringChunks(made) => StoringConfined(s, d, [], made);
      case _ =>
    }
  }

  lemma SameConfined(t: Tables, d: Delivery)
    ensures TablesConfined(t, t, d)
  {
  }

  lemma IndexingConfined(env: Env, s: State, w: nat, choice: Choice)
    requires w in s.deliveries
    ensures TablesConfined(s.tables, RechunkStep(env, s, w, choice).tables, s.deliveries[w])
    ensures TablesConfined(s.tables, EmbedStep(env, s, w, choice).tables, s.deliveries[w])
  {
    hide TablesConfined, ReplaceChunks, StoreReady, Transient, Unclassified, ListPages, ListChunks, Provenance,
      PartialEffect, WithoutDocument, RecordsFor;
    var d := s.deliveries[w];
    SameConfined(s.tables, d);
    match d.pc {
      case ReplacingChunks(made) => ReplacingConfined(s, d, made);
      case StoringReady => ReplacingConfined(s, d, []);
      case _ =>
    }
  }

  lemma ClaimsConfined(s: State, w: nat, choice: Choice)
    requires w in s.deliveries
    ensures TablesConfined(s.tables, ClaimStep(s, w, choice).tables, s.deliveries[w])
    ensures ClaimStep(s, w, choice).points == s.points
  {
    hide TablesConfined, Cas, Admission, Entered, Unclassified;
    var d := s.deliveries[w];
    SameConfined(s.tables, d);
    match d.pc {
      case Claiming(stage) =>
        CasConfined(s, w, StartsAt(stage), Processing, None, Entered(d, stage), Done(Returned(SkippedInProgress)));
      case Failing(_, reason) =>
        CasConfined(s, w, Processing, Failed, Some(reason), Done(Returned(HasFailed(reason))), Done(Returned(ClaimLost)));
      case Releasing(stage, reason) =>
        CasConfined(s, w, Processing, StartsAt(stage), None, Done(RaisedTransient(stage, reason)), Done(Returned(ClaimLost)));
      case Interrupted(stage) =>
        CasConfined(s, w, Processing, StartsAt(stage), None, Done(WasCancelled), Done(WasCancelled));
      case _ =>
    }
  }

  lemma GivingUpConfined(s: State, w: nat, choice: Choice)
    requires w in s.deliveries
    ensures TablesConfined(s.tables, GiveUpStep(s, w, choice).tables, s.deliveries[w])
    ensures GiveUpStep(s, w, choice).points == s.points
  {
    hide TablesConfined, Cas;
    SameConfined(s.tables, s.deliveries[w]);
    match s.deliveries[w].pc {
      case GivingUp(tried, claimed) =>
        var moved := if tried < 2 then GivingUp(tried + 1, true) else RecordingGivenUp(true);
        var lost := if tried < 2 then GivingUp(tried + 1, claimed)
                    else if claimed then RecordingGivenUp(true) else CheckingProcessing;
        CasConfined(s, w, Recoverable(tried), Processing, None, moved, lost);
      case RecordingGivenUp(_) =>
        CasConfined(s, w, Processing, Failed, Some(ProcessingFailure), Done(RaisedError), Done(RaisedError));
      case _ =>
    }
  }

  /** The records a holder writes are all under ids of its own document. */
  lemma RecordsNamed(env: Env, s: State, w: nat)
    requires GoodEnv(env) && Inv(env, s) && w in s.deliveries && s.deliveries[w].pc.Upserting?
    ensures var d := s.deliveries[w];
            forall id | id in d.pc.records :: id.document in s.tables && Names(d, id.document, s.tables[id.document].row)
  {
    HolderFacts(env, s, w);
    var d := s.deliveries[w];
    RecordsFit(env, s.tables, d, d.job.document.parsed.value, d.pc.records);
  }

  lemma PartConfined(env: Env, s: State, w: nat, took: set<ChunkId>)
    requires GoodEnv(env) && Inv(env, s) && w in s.deliveries
    ensures PointsConfined(s.tables, s.points, PartialEffect(s.points, s.deliveries[w], took), s.deliveries[w])
  {
    hide Inv;
    var d := s.deliveries[w];
    if d.pc.Upserting? {
      RecordsNamed(env, s, w);
    } else if d.pc.DeletingVectors? {
      forall id | id in s.points && Attributed(s.points[id], d.job.document, d.job.owner)
        ensures id.document in s.tables && Names(d, id.document, s.tables[id.document].row)
      {
        DeleteFindsThePoints(env, s, w, id);
        HolderBasics(env, s, w);
      }
    }
  }

  lemma WholeCallConfined(env: Env, s: State, w: nat)
    requires GoodEnv(env) && Inv(env, s) && w in s.deliveries
    ensures var d := s.deliveries[w];
            && (d.pc.Upserting? ==> PointsConfined(s.tables, s.points, s.points + d.pc.records, d))
            && (d.pc.DeletingVectors? ==>
                  PointsConfined(s.tables, s.points, WithoutDocument(s.points, d.job.document, d.job.owner), d))
  {
    hide Inv;
    var d := s.deliveries[w];
    if d.pc.Upserting? {
      RecordsNamed(env, s, w);
    } else if d.pc.DeletingVectors? {
      forall id | id in s.points && Attributed(s.points[id], d.job.document, d.job.owner)
        ensures id.document in s.tables && Names(d, id.document, s.tables[id.document].row)
      {
        DeleteFindsThePoints(env, s, w, id);
        HolderBasics(env, s, w);
      }
    }
  }

  lemma IndexingPointsConfined(env: Env, s: State, w: nat, choice: Choice)
    requires GoodEnv(env) && Inv(env, s) && w in s.deliveries
    ensures PointsConfined(s.tables, s.points, RechunkStep(env, s, w, choice).points, s.deliveries[w])
    ensures PointsConfined(s.tables, s.points, EmbedStep(env, s, w, choice).points, s.deliveries[w])
  {
    hide Inv, PointsConfined, ReplaceChunks, StoreReady, Transient, Unclassified, ListPages, ListChunks, Provenance,
      PartialEffect, WithoutDocument, RecordsFor;
    var d := s.deliveries[w];
    SamePointsConfined(s.tables, s.points, d);
    WholeCallConfined(env, s, w);
    if choice.StoreFails? || choice.Raises? {
      PartConfined(env, s, w, choice.took);
    }
  }

  lemma SamePointsConfined(t: Tables, p: Points, d: Delivery)
    ensures PointsConfined(t, p, p, d)
  {
  }

  /**
   A delivery changes nothing but the live row its job names together with the row's owner, and that
   row's pages, chunks and points: a job naming another owner changes nothing at all.
   */
  lemma DeliveriesAreConfined(env: Env, events: seq<Event>, s: State, w: nat, choice: Choice, took: set<ChunkId>)
    requires Reached(env, events, s) && w in s.deliveries
    ensures var d := s.deliveries[w];
            && TablesConfined(s.tables, StepDelivery(env, s, w, choice).tables, d)
            && PointsConfined(s.tables, s.points, StepDelivery(env, s, w, choice).points, d)
            && CancelDelivery(s, w, took).tables == s.tables
            && PointsConfined(s.tables, s.points, CancelDelivery(s, w, took).points, d)
            && KillDelivery(s, w, took).tables == s.tables
            && PointsConfined(s.tables, s.points, KillDelivery(s, w, took).points, d)
  {
    hide Inv, TablesConfined, PointsConfined, ParseStep, ChunkStep, RechunkStep, EmbedStep, ClaimStep, GiveUpStep,
      PartialEffect, HeldStage;
    ReachedInv(env, events, s);
    SameConfined(s.tables, s.deliveries[w]);
    SamePointsConfined(s.tables, s.points, s.deliveries[w]);
    StagesConfined(env, s, w, choice);
    IndexingConfined(env, s, w, choice);
    IndexingPointsConfined(env, s, w, choice);
    ClaimsConfined(s, w, choice);
    GivingUpConfined(s, w, choice);
    PartConfined(env, s, w, took);
  }

  // --- the reaper --------------------------------------------------------------------------------

  /**
   With a threshold above the job timeout, the reaper fails no document whose claim belongs to a
   delivery still within its budget.
   */
  lemma ReaperSparesLiveWorkers(env: Env, events: seq<Event>, s: State, w: nat, timeout: nat, staleAfter: nat)
    requires Reached(env, events, s) && w in s.deliveries && Holds(s.deliveries[w].pc)
    requires s.now <= s.deliveries[w].startedAt + timeout && timeout < staleAfter
    ensures s.deliveries[w].job.document.parsed.Some?
    ensures var x := s.deliveries[w].job.document.parsed.value;
            x in s.tables && FailStale(s.tables, s.now, staleAfter)[x] == s.tables[x]
  {
    ReachedInv(env, events, s);
    StartedAt(env, s, w);
  }

  /**
   In every reachable state a reap fails exactly the live claims untouched for longer than the threshold:
   no claim is left that old, and every other row, all pages and chunks, and all points stay.
   */
  lemma ReaperFailsTheStale(env: Env, events: seq<Event>, s: State, staleAfter: nat)
    requires Reached(env, events, s)
    ensures var r := Apply(env, s, Reap(staleAfter));
            && Reached(env, events + [Reap(staleAfter)], r)
            && r.points == s.points && r.deliveries == s.deliveries && r.now == s.now
            && r.tables.Keys == s.tables.Keys
            && (forall x | x in s.tables ::
                  var e, f := s.tables[x], r.tables[x];
                  && f.pages == e.pages && f.chunks == e.chunks
                  && (f != e <==> e.row.status == Processing && !e.row.deleted && s.now - e.row.updatedAt > staleAfter)
                  && (f != e ==> f.row.status == Failed && f.row.failureReason == Some(StaleProcessing)))
            && (forall x | x in r.tables && r.tables[x].row.status == Processing && !r.tables[x].row.deleted ::
                  s.now - r.tables[x].row.updatedAt <= staleAfter)
  {
    var more := events + [Reap(staleAfter)];
    assert more[..|more| - 1] == events && more[|more| - 1] == Reap(staleAfter);
  }
}
