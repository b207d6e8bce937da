/**
 What a job that disagrees with its document's row can do to it, exactly.

 `ingest` rejects such a job before it writes anything. `record_given_up`, which the worker calls when a
 final attempt ends in an error nothing classified, does not compare them again.
 */
module DisagreeingJobs {
  import opened Identifiers
  import opened Text
  import opened Tables
  import opened VectorIndex
  import opened Pipeline
  import opened PipelineInvariant
  import opened PipelineAlone
  import opened PipelineTheorems
  import opened DeliveryTheorems

  /** The storage key is the one the job's own owner and hash derive to. */
  predicate KeyDerived(job: Job) {
    StorageKeyFor(job.owner, job.contentHash) == Some(job.storageKey)
  }

  /** The job names a row and agrees with it. */
  predicate Agrees(t: Tables, job: Job) {
    && job.document.parsed.Some? && job.document.parsed.value in t
    && JobDisagreesWith(job, t[job.document.parsed.value].row) == None
  }

  /** The job names a row and disagrees with it. */
  predicate Disagrees(t: Tables, job: Job) {
    && job.document.parsed.Some? && job.document.parsed.value in t
    && JobDisagreesWith(job, t[job.document.parsed.value].row).Some?
  }

  /** In the given-up recorder. */
  predicate Recording(pc: Pc) {
    pc.GivingUp? || pc.CheckingProcessing? || pc.RecordingGivenUp?
  }

  // --- over runs -----------------------------------------------------------------------

  /** Rows stay, and keep every column a job is compared with. */
  predicate ColumnsStay(t: Tables, u: Tables) {
    forall x | x in t :: x in u && SameColumns(t[x].row, u[x].row)
  }

  /** Past `ingest`'s checks a job agrees with its row, and only a final attempt is ever recorded as given up. */
  predicate Vetted(t: Tables, d: Delivery) {
    && (d.pc != Begin && !d.pc.Done? ==> KeyDerived(d.job))
    && (Admitted(d.pc) ==> Agrees(t, d.job))
    && (Recording(d.pc) ==> d.finalAttempt)
  }

  lemma StillVetted(t: Tables, u: Tables, d: Delivery)
    requires Vetted(t, d) && ColumnsStay(t, u)
    ensures Vetted(u, d)
  {
    hide KeyDerived, HeldStage, Recording;
  }

  lemma TransactionsKeepColumns(t: Tables, now: nat, job: Job, config: Config, pages: seq<Page>, chunks: seq<Text.Chunk>)
    ensures StoreParsed(t, now, job, pages).Committed? ==> ColumnsStay(t, StoreParsed(t, now, job, pages).tables)
    ensures StoreChunks(t, now, job, config, chunks).Committed? ==>
              ColumnsStay(t, StoreChunks(t, now, job, config, chunks).tables)
    ensures ReplaceChunks(t, now, job, config, chunks).Committed? ==>
              ColumnsStay(t, ReplaceChunks(t, now, job, config, chunks).tables)
    ensures StoreReady(t, now, job, config).Committed? ==> ColumnsStay(t, StoreReady(t, now, job, config).tables)
  {
  }

  lemma SameColumnsStay(t: Tables)
    ensures ColumnsStay(t, t)
  {
  }

  lemma CasKeepsColumns(s: State, w: nat)
    requires w in s.deliveries
    ensures forall expected, next, reason, moved, lost ::
              ColumnsStay(s.tables, Cas(s, w, expected, next, reason, moved, lost).tables)
  {
  }

  lemma MovingKeepsTables(w: nat)
    ensures forall s: State, pc: Pc | w in s.deliveries :: At(s, w, pc).tables == s.tables && At(s, w, pc).points == s.points
  {
  }

  lemma StagesKeepColumns(env: Env, s: State, w: nat, choice: Choice)
    requires w in s.deliveries
    ensures ColumnsStay(s.tables, ParseStep(env, s, w, choice).tables)
    ensures ColumnsStay(s.tables, ChunkStep(env, s, w, choice).tables)
  {
    hide ColumnsStay, StoreParsed, StoreChunks, Transient, Unclassified, HasText, ListPages, At;
    var d := s.deliveries[w];
    SameColumnsStay(s.tables);
    MovingKeepsTables(w);
    if d.pc.StoringParsed? {
      TransactionsKeepColumns(s.tables, s.now, d.job, d.config, d.pc.extracted, []);
    } else if d.pc.StoringChunks? {
      TransactionsKeepColumns(s.tables, s.now, d.job, d.config, [], d.pc.made);
    }
  }

  lemma IndexingKeepsColumns(env: Env, s: State, w: nat, choice: Choice)
    requires w in s.deliveries
    ensures ColumnsStay(s.tables, RechunkStep(env, s, w, choice).tables)
    ensures ColumnsStay(s.tables, EmbedStep(env, s, w, choice).tables)
  {
    hide ColumnsStay, ReplaceChunks, StoreReady, Transient, Unclassified, ListPages, ListChunks, Provenance,
      PartialEffect, WithoutDocument, RecordsFor, At;
    var d := s.deliveries[w];
    SameColumnsStay(s.tables);
    MovingKeepsTables(w);
    if d.pc.ReplacingChunks? {
      TransactionsKeepColumns(s.tables, s.now, d.job, d.config, [], d.pc.made);
    } else if d.pc.StoringReady? {
      TransactionsKeepColumns(s.tables, s.now, d.job, d.config, [], []);
    }
  }

  lemma ClaimsKeepColumns(s: State, w: nat, choice: Choice)
    requires w in s.deliveries
    ensures ColumnsStay(s.tables, ClaimStep(s, w, choice).tables)
    ensures ColumnsStay(s.tables, GiveUpStep(s, w, choice).tables)
  {
    hide ColumnsStay, Cas, Admission, Entered, Unclassified, Matches, At;
    SameColumnsStay(s.tables);
    MovingKeepsTables(w);
    CasKeepsColumns(s, w);
  }

  lemma StepKeepsColumns(env: Env, s: State, w: nat, choice: Choice)
    requires w in s.deliveries
    ensures ColumnsStay(s.tables, StepDelivery(env, s, w, choice).tables)
  {
    hide ColumnsStay, ParseStep, ChunkStep, RechunkStep, EmbedStep, ClaimStep, GiveUpStep;
    SameColumnsStay(s.tables);
    StagesKeepColumns(env, s, w, choice);
    IndexingKeepsColumns(env, s, w, choice);
    ClaimsKeepColumns(s, w, choice);
  }

  /** Nothing goes back to the beginning, and only a final attempt goes to the recorder. */
  predicate GoesOn(d: Delivery, r: State, w: nat) {
    w in r.deliveries && r.deliveries[w].pc != Begin && (Recording(r.deliveries[w].pc) ==> d.finalAttempt)
  }

  predicate Onward(d: Delivery, pc: Pc) {
    pc != Begin && (Recording(pc) ==> d.finalAttempt)
  }

  lemma MovingGoesOn(d: Delivery, w: nat)
    ensures forall s: State, pc: Pc | w in s.deliveries && Onward(d, pc) :: GoesOn(d, At(s, w, pc), w)
  {
  }

  lemma CasGoesOn(d: Delivery, w: nat)
    ensures forall s: State, expected, next, reason, moved: Pc, lost: Pc
              | w in s.deliveries && Onward(d, moved) && Onward(d, lost) ::
              GoesOn(d, Cas(s, w, expected, next, reason, moved, lost), w)
  {
    hide Transition;
  }

  lemma AdmittedIsOnward(s: State, w: nat)
    requires w in s.deliveries && Admitted(s.deliveries[w].pc)
    ensures GoesOn(s.deliveries[w], s, w)
  {
  }

  lemma StagesGoOn(env: Env, s: State, w: nat, choice: Choice)
    requires w in s.deliveries && GoesOn(s.deliveries[w], s, w)
    ensures GoesOn(s.deliveries[w], ParseStep(env, s, w, choice), w)
    ensures GoesOn(s.deliveries[w], ChunkStep(env, s, w, choice), w)
  {
    hide StoreParsed, StoreChunks, ListPages, HasText, At, GoesOn;
    MovingGoesOn(s.deliveries[w], w);
  }

  lemma RechunkingGoesOn(env: Env, s: State, w: nat, choice: Choice)
    requires w in s.deliveries && GoesOn(s.deliveries[w], s, w)
    ensures GoesOn(s.deliveries[w], RechunkStep(env, s, w, choice), w)
  {
    hide ReplaceChunks, PartialEffect, WithoutDocument, ListPages, At, GoesOn;
    MovingGoesOn(s.deliveries[w], w);
  }

  lemma EmbeddingGoesOn(env: Env, s: State, w: nat, choice: Choice)
    requires w in s.deliveries && GoesOn(s.deliveries[w], s, w)
    ensures GoesOn(s.deliveries[w], EmbedStep(env, s, w, choice), w)
  {
    hide StoreReady, PartialEffect, ListChunks, Provenance, RecordsFor, At, GoesOn;
    MovingGoesOn(s.deliveries[w], w);
  }

  lemma ClaimsGoOn(s: State, w: nat, choice: Choice)
    requires w in s.deliveries && s.deliveries[w].pc != Begin && GoesOn(s.deliveries[w], s, w)
    ensures GoesOn(s.deliveries[w], ClaimStep(s, w, choice), w)
  {
    hide Admission, At, Cas, GoesOn;
    MovingGoesOn(s.deliveries[w], w);
    CasGoesOn(s.deliveries[w], w);
  }

  lemma AdmittedGoesOn(env: Env, s: State, w: nat, choice: Choice)
    requires w in s.deliveries && Admitted(s.deliveries[w].pc)
    ensures GoesOn(s.deliveries[w], StepDelivery(env, s, w, choice), w)
  {
    hide ParseStep, ChunkStep, RechunkStep, EmbedStep, ClaimStep, GoesOn;
    AdmittedIsOnward(s, w);
    StagesGoOn(env, s, w, choice);
    RechunkingGoesOn(env, s, w, choice);
    EmbeddingGoesOn(env, s, w, choice);
    ClaimsGoOn(s, w, choice);
  }

  /** The recorder goes nowhere else. */
  lemma RecordingGoesOn(env: Env, s: State, w: nat, choice: Choice)
    requires w in s.deliveries && (Recording(s.deliveries[w].pc) || s.deliveries[w].pc.Done?)
    ensures var r := StepDelivery(env, s, w, choice);
            && w in r.deliveries && (Recording(r.deliveries[w].pc) || r.deliveries[w].pc.Done?)
            && (s.deliveries[w].pc.Done? ==> r == s)
  {
    hide At, Cas, Matches;
    MovesTo(w);
    CasMovesTo(w);
  }

  /** What `ingest` does first writes nothing, and lets in only a job that agrees. */
  lemma BeginningIs(env: Env, s: State, w: nat, choice: Choice)
    requires w in s.deliveries && s.deliveries[w].pc == Begin
    ensures var r, d := StepDelivery(env, s, w, choice), s.deliveries[w];
            && r.tables == s.tables && r.points == s.points
            && w in r.deliveries && r.deliveries[w].job == d.job && r.deliveries[w].finalAttempt == d.finalAttempt
            && Vetted(s.tables, r.deliveries[w])
            && (choice.Raises? && KeyDerived(d.job) ==> r == At(s, w, Unclassified(d)))
            && (!KeyDerived(d.job) ==> r.deliveries[w].pc.Done?)
            && (Recording(r.deliveries[w].pc) ==> r.deliveries[w].pc == GivingUp(0, false))
            && (!Agrees(s.tables, d.job) ==> r.deliveries[w].pc.Done? || r.deliveries[w].pc == GivingUp(0, false))
  {
    hide JobDisagreesWith, StorageKeyFor;
  }

  lemma StepStaysVetted(env: Env, s: State, w: nat, choice: Choice)
    requires w in s.deliveries && Vetted(s.tables, s.deliveries[w])
    ensures var r := StepDelivery(env, s, w, choice);
            && w in r.deliveries && ColumnsStay(s.tables, r.tables) && Vetted(r.tables, r.deliveries[w])
  {
    hide StepDelivery, ColumnsStay, KeyDerived, Agrees;
    var d, r := s.deliveries[w], StepDelivery(env, s, w, choice);
    KeepsDeliveries(env, s, w, choice);
    StepKeepsColumns(env, s, w, choice);
    if d.pc == Begin {
      BeginningIs(env, s, w, choice);
    } else if Admitted(d.pc) {
      AdmittedGoesOn(env, s, w, choice);
      StillVetted(s.tables, r.tables, d);
      AgreesStill(s.tables, r.tables, d.job);
    } else {
      RecordingGoesOn(env, s, w, choice);
    }
  }

  lemma AgreesStill(t: Tables, u: Tables, job: Job)
    requires Agrees(t, job) && ColumnsStay(t, u)
    ensures Agrees(u, job)
  {
  }

  ghost predicate AllVetted(s: State) {
    forall w | w in s.deliveries :: Vetted(s.tables, s.deliveries[w])
  }

  lemma InterruptedStaysVetted(s: State, w: nat, took: set<ChunkId>)
    requires w in s.deliveries && Vetted(s.tables, s.deliveries[w])
    ensures CancelDelivery(s, w, took).tables == s.tables && KillDelivery(s, w, took).tables == s.tables
    ensures w in CancelDelivery(s, w, took).deliveries && w in KillDelivery(s, w, took).deliveries
    ensures Vetted(s.tables, CancelDelivery(s, w, took).deliveries[w])
    ensures Vetted(s.tables, KillDelivery(s, w, took).deliveries[w])
  {
    hide KeyDerived, Agrees, PartialEffect;
  }

  /** The events that are no step keep the columns too. */
  lemma OtherEventsKeepColumns(env: Env, s: State, e: Event)
    requires !e.Step?
    ensures ColumnsStay(s.tables, Apply(env, s, e).tables)
  {
    hide PartialEffect, HeldStage, UniqueContent, NewRow;
  }

  lemma ApplyStaysVetted(env: Env, s: State, e: Event)
    requires AllVetted(s)
    ensures AllVetted(Apply(env, s, e))
  {
    hide Vetted, StepDelivery, CancelDelivery, KillDelivery, ColumnsStay, FailStale, SoftDelete, UniqueContent, NewRow;
    var r := Apply(env, s, e);
    if e.Step? && e.delivery in s.deliveries {
      StepStaysVetted(env, s, e.delivery, e.choice);
      KeepsDeliveries(env, s, e.delivery, e.choice);
    } else {
      SameColumnsStay(s.tables);
      OtherEvents(env, s, e);
    }
    forall v | v in r.deliveries
      ensures Vetted(r.tables, r.deliveries[v])
    {
      if v in s.deliveries && r.deliveries[v] == s.deliveries[v] {
        StillVetted(s.tables, r.tables, s.deliveries[v]);
      }
    }
  }

  /** Whatever else happens, a delivery changed by it is vetted. */
  lemma OtherEvents(env: Env, s: State, e: Event)
    requires AllVetted(s) && !(e.Step? && e.delivery in s.deliveries)
    ensures var r := Apply(env, s, e);
            && ColumnsStay(s.tables, r.tables)
            && forall v | v in r.deliveries ::
                 (v in s.deliveries && r.deliveries[v] == s.deliveries[v]) || Vetted(r.tables, r.deliveries[v])
  {
    hide Vetted, StepDelivery, CancelDelivery, KillDelivery, ColumnsStay, FailStale, SoftDelete, UniqueContent, NewRow;
    SameColumnsStay(s.tables);
    if e.Step? {
    } else {
      OtherEventsKeepColumns(env, s, e);
      if (e.Cancel? || e.Kill?) && e.delivery in s.deliveries {
        InterruptedStaysVetted(s, e.delivery, e.took);
        InterruptionMovesOne(s, e.delivery, e.took);
      } else if e.Deliver? {
        NewIsVetted(s.tables, Delivery(e.job, e.config, e.finalAttempt, s.now, None, Begin));
      }
    }
  }

  lemma NewIsVetted(t: Tables, d: Delivery)
    requires d.pc == Begin
    ensures Vetted(t, d)
  {
  }

  lemma InterruptionMovesOne(s: State, w: nat, took: set<ChunkId>)
    requires w in s.deliveries
    ensures forall v | v in CancelDelivery(s, w, took).deliveries && v != w ::
              v in s.deliveries && CancelDelivery(s, w, took).deliveries[v] == s.deliveries[v]
    ensures forall v | v in KillDelivery(s, w, took).deliveries && v != w ::
              v in s.deliveries && KillDelivery(s, w, took).deliveries[v] == s.deliveries[v]
  {
    hide PartialEffect, HeldStage;
  }

  /** In every state of every run, under any environment and any texts of ids. */
  lemma {:induction false} RunStaysVetted(env: Env, events: seq<Event>)
    ensures AllVetted(Run(env, Empty, events))
    decreases |events|
  {
    hide Vetted, Apply;
    if events != [] {
      RunStaysVetted(env, events[..|events| - 1]);
      ApplyStaysVetted(env, Run(env, Empty, events[..|events| - 1]), events[|events| - 1]);
    }
  }

  /** Whether `e` is something delivery `w` does, or that is done to it. */
  predicate IsOf(e: Event, w: nat) {
    (e.Step? || e.Cancel? || e.Kill?) && e.delivery == w
  }

  /**
   Over all runs: a job that does not agree with a row changes neither store, whatever its delivery does and
   whatever is done to it, if its attempt is not the last, or if its storage key is not its own.
   */
  lemma {:induction false} DisagreeingRetryChangesNothing(env: Env, events: seq<Event>, w: nat, e: Event)
    requires var s := Run(env, Empty, events);
             && w in s.deliveries && IsOf(e, w)
             && !Agrees(s.tables, s.deliveries[w].job)
             && (!s.deliveries[w].finalAttempt || !KeyDerived(s.deliveries[w].job))
    ensures var s, r := Run(env, Empty, events), Apply(env, Run(env, Empty, events), e);
            r.tables == s.tables && r.points == s.points
  {
    hide Run, Agrees, KeyDerived, HeldStage;
    RunStaysVetted(env, events);
    var s := Run(env, Empty, events);
    var d := s.deliveries[w];
    assert Vetted(s.tables, d);
    OutsideNothingIsTaken(s, d);
    if e.Step? {
      if d.pc == Begin {
        BeginningIs(env, s, w, e.choice);
      }
    }
  }

  lemma OutsideNothingIsTaken(s: State, d: Delivery)
    requires !Admitted(d.pc)
    ensures forall took :: PartialEffect(s.points, d, took) == s.points
    ensures d.pc == Begin || Recording(d.pc) || d.pc.Done?
  {
  }

  // --- the exact condition ----------------------------------------------------------------

  /**
   What a caller can check before a delivery: the attempt is the last, the key is the job's own, and the
   job names the live row of this owner, not yet ready or failed.
   */
  predicate RecorderReaches(t: Tables, job: Job, finalAttempt: bool) {
    && finalAttempt && KeyDerived(job)
    && Owned(t, job.document, job.owner)
    && t[job.document.parsed.value].row.status != Ready && t[job.document.parsed.value].row.status != Failed
  }

  lemma CasChangesIfItMatches(s: State, w: nat)
    requires w in s.deliveries
    ensures forall expected, next, reason, moved, lost ::
              var r := Cas(s, w, expected, next, reason, moved, lost);
              && r.points == s.points
              && (r.tables != s.tables ==> Matches(s.tables, s.deliveries[w].job.document, s.deliveries[w].job.owner, expected))
  {
    hide Owned;
  }

  lemma RecorderSteps(env: Env, s: State, w: nat, choice: Choice)
    requires w in s.deliveries && Recording(s.deliveries[w].pc)
    ensures var r := StepDelivery(env, s, w, choice);
            var job := s.deliveries[w].job;
            && r.points == s.points
            && (r.tables != s.tables ==>
                  && !s.deliveries[w].pc.CheckingProcessing?
                  && Owned(s.tables, job.document, job.owner)
                  && s.tables[job.document.parsed.value].row.status != Ready
                  && s.tables[job.document.parsed.value].row.status != Failed)
  {
    hide Owned, Cas, At;
    CasChangesIfItMatches(s, w);
    MovingKeepsTables(w);
  }

  /**
   Over all runs, whatever has happened: when a job that disagrees with its row changes a store at all, it is
   the recorder's step, and the condition holds.
   */
  lemma {:induction false} DisagreeingStepIsTheRecorders(env: Env, events: seq<Event>, w: nat, e: Event)
    requires var s := Run(env, Empty, events);
             w in s.deliveries && IsOf(e, w) && Disagrees(s.tables, s.deliveries[w].job)
    ensures var s, r := Run(env, Empty, events), Apply(env, Run(env, Empty, events), e);
            var d := s.deliveries[w];
            r.tables != s.tables || r.points != s.points ==>
              && e.Step? && (d.pc.GivingUp? || d.pc.RecordingGivenUp?)
              && RecorderReaches(s.tables, d.job, d.finalAttempt)
  {
    hide Run, Agrees, KeyDerived, HeldStage, StepDelivery, Owned, Disagrees;
    RunStaysVetted(env, events);
    var s := Run(env, Empty, events);
    var d := s.deliveries[w];
    assert Vetted(s.tables, d);
    DisagreesIsNotAgreeing(s.tables, d.job);
    OutsideNothingIsTaken(s, d);
    if e.Step? {
      if d.pc == Begin {
        BeginningIs(env, s, w, e.choice);
      } else if Recording(d.pc) {
        RecorderSteps(env, s, w, e.choice);
      } else {
        RecordingGoesOn(env, s, w, e.choice);
      }
    }
  }

  /** Out of the recorder's reach: the stores as they were, and the delivery where it can do nothing to them. */
  predicate Harmless(s: State, r: State, w: nat) {
    && w in s.deliveries && w in r.deliveries
    && r.tables == s.tables && r.points == s.points
    && r.deliveries[w].job == s.deliveries[w].job && r.deliveries[w].finalAttempt == s.deliveries[w].finalAttempt
    && (r.deliveries[w].pc == Begin || r.deliveries[w].pc.Done?
        || ((r.deliveries[w].pc.GivingUp? || r.deliveries[w].pc.CheckingProcessing?)
            && s.deliveries[w].finalAttempt && KeyDerived(s.deliveries[w].job)))
  }

  lemma RecorderMisses(env: Env, s: State, w: nat, choice: Choice)
    requires w in s.deliveries && (s.deliveries[w].pc.GivingUp? || s.deliveries[w].pc.CheckingProcessing?)
    requires s.deliveries[w].pc.GivingUp? ==> !s.deliveries[w].pc.claimed
    requires var job := s.deliveries[w].job;
             !Owned(s.tables, job.document, job.owner)
             || s.tables[job.document.parsed.value].row.status == Ready
             || s.tables[job.document.parsed.value].row.status == Failed
    ensures var r := StepDelivery(env, s, w, choice);
            && w in r.deliveries && r.tables == s.tables && r.points == s.points
            && (r.deliveries[w].pc.Done? || r.deliveries[w].pc.CheckingProcessing?
                || (r.deliveries[w].pc.GivingUp? && !r.deliveries[w].pc.claimed))
  {
    hide Owned, LiveDocumentExists;
  }

  /** Nothing is claimed: out of reach, the recorder never gets hold of the row. */
  predicate Unclaimed(pc: Pc) {
    pc.GivingUp? ==> !pc.claimed
  }

  lemma StepIsHarmless(env: Env, s: State, r: State, w: nat, choice: Choice)
    requires w in s.deliveries && Disagrees(s.tables, s.deliveries[w].job)
    requires !RecorderReaches(s.tables, s.deliveries[w].job, s.deliveries[w].finalAttempt)
    requires Harmless(s, r, w) && Unclaimed(r.deliveries[w].pc)
    ensures var q := StepDelivery(env, r, w, choice);
            Harmless(s, q, w) && Unclaimed(q.deliveries[w].pc)
  {
    hide StepDelivery, KeyDerived, Owned;
    KeepsDeliveries(env, r, w, choice);
    if r.deliveries[w].pc == Begin {
      BeginningIs(env, r, w, choice);
      DisagreesIsNotAgreeing(s.tables, s.deliveries[w].job);
      BeginningRecordsFinal(env, r, w, choice);
    } else if r.deliveries[w].pc.Done? {
      RecordingGoesOn(env, r, w, choice);
    } else {
      RecorderMisses(env, r, w, choice);
    }
  }

  lemma DisagreesIsNotAgreeing(t: Tables, job: Job)
    requires Disagrees(t, job)
    ensures !Agrees(t, job)
  {
  }

  lemma BeginningRecordsFinal(env: Env, s: State, w: nat, choice: Choice)
    requires w in s.deliveries && s.deliveries[w].pc == Begin
    ensures var r := StepDelivery(env, s, w, choice);
            w in r.deliveries && (r.deliveries[w].pc.GivingUp? ==> s.deliveries[w].finalAttempt && KeyDerived(s.deliveries[w].job))
  {
    hide KeyDerived;
    BeginningIs(env, s, w, choice);
  }

  lemma {:induction false} AloneIsHarmless(env: Env, s: State, w: nat, choices: seq<Choice>)
    requires w in s.deliveries && s.deliveries[w].pc == Begin && Disagrees(s.tables, s.deliveries[w].job)
    requires !RecorderReaches(s.tables, s.deliveries[w].job, s.deliveries[w].finalAttempt)
    ensures var r := Alone(env, s, w, choices);
            Harmless(s, r, w) && Unclaimed(r.deliveries[w].pc)
    decreases |choices|
  {
    hide StepDelivery, RecorderReaches, Disagrees, KeyDerived;
    if choices != [] {
      var front := choices[..|choices| - 1];
      AloneIsHarmless(env, s, w, front);
      StepIsHarmless(env, s, Alone(env, s, w, front), w, choices[|choices| - 1]);
    }
  }

  // --- within reach -------------------------------------------------------------------------

  /** The row is the owner's, live and of this status, and delivery `w` is at `pc`. */
  predicate Reaching(s: State, w: nat, status: Status, pc: Pc) {
    && w in s.deliveries && s.deliveries[w].pc == pc
    && Matches(s.tables, s.deliveries[w].job.document, s.deliveries[w].job.owner, status)
  }

  lemma ClaimsIfItCan(env: Env, s: State, w: nat, status: Status, tried: nat, claimed: bool)
    requires Reaching(s, w, status, GivingUp(tried, claimed)) && tried <= 2
    ensures var hit := status == Recoverable(tried);
            var after := if tried < 2 then GivingUp(tried + 1, claimed || hit)
                         else if claimed || hit then RecordingGivenUp(true) else CheckingProcessing;
            Reaching(StepDelivery(env, s, w, Succeeds), w, if hit then Processing else status, after)
  {
  }

  lemma ChecksIt(env: Env, s: State, w: nat)
    requires Reaching(s, w, Processing, CheckingProcessing)
    ensures Reaching(StepDelivery(env, s, w, Succeeds), w, Processing, RecordingGivenUp(false))
  {
  }

  lemma RecordsIt(env: Env, s: State, w: nat, claimed: bool)
    requires Reaching(s, w, Processing, RecordingGivenUp(claimed))
    ensures var r := StepDelivery(env, s, w, Succeeds);
            && Reaching(r, w, Failed, Done(RaisedError)) && r.deliveries[w].job == s.deliveries[w].job
            && r.tables[s.deliveries[w].job.document.parsed.value].row.failureReason == Some(ProcessingFailure)
  {
  }

  /** The answers that fail the row: an error in `ingest`, and a recorder that meets none. */
  const GivesUpOnIt: seq<Choice> := [Raises({}), Succeeds, Succeeds, Succeeds, Succeeds, Succeeds]

  function After(env: Env, s: State, w: nat, n: nat): State
    requires w in s.deliveries && n <= |GivesUpOnIt|
  {
    Alone(env, s, w, GivesUpOnIt[..n])
  }

  lemma AfterIs(env: Env, s: State, w: nat, n: nat)
    requires w in s.deliveries && n <= |GivesUpOnIt|
    ensures w in After(env, s, w, n).deliveries && After(env, s, w, n).deliveries[w].job == s.deliveries[w].job
    ensures n == 0 ==> After(env, s, w, n) == s
    ensures n > 0 ==> After(env, s, w, n) == StepDelivery(env, After(env, s, w, n - 1), w, GivesUpOnIt[n - 1])
    decreases n
  {
    hide StepDelivery;
    if n > 0 {
      AfterIs(env, s, w, n - 1);
      KeepsDeliveries(env, After(env, s, w, n - 1), w, GivesUpOnIt[n - 1]);
      assert GivesUpOnIt[..n][..n - 1] == GivesUpOnIt[..n - 1];
    }
  }

  lemma {:induction false} ReachedIsFailed(env: Env, s: State, w: nat)
    requires w in s.deliveries && s.deliveries[w].pc == Begin
    requires RecorderReaches(s.tables, s.deliveries[w].job, s.deliveries[w].finalAttempt)
    ensures var r := Alone(env, s, w, GivesUpOnIt);
            var x := s.deliveries[w].job.document.parsed.value;
            && x in r.tables && r.tables[x].row.status == Failed
            && r.tables[x].row.failureReason == Some(ProcessingFailure)
  {
    hide StepDelivery, Alone, Reaching, KeyDerived, After;
    var status := s.tables[s.deliveries[w].job.document.parsed.value].row.status;
    AfterIs(env, s, w, 1);
    AfterIs(env, s, w, 2);
    AfterIs(env, s, w, 3);
    AfterIs(env, s, w, 4);
    AfterIs(env, s, w, 5);
    AfterIs(env, s, w, 6);
    AfterIs(env, s, w, 0);
    BeginsGivingUp(env, s, w, status);
    var hit0 := status == Pending;
    var s1 := if hit0 then Processing else status;
    ClaimsIfItCan(env, After(env, s, w, 1), w, status, 0, false);
    var hit1 := s1 == Parsed;
    var s2 := if hit1 then Processing else s1;
    ClaimsIfItCan(env, After(env, s, w, 2), w, s1, 1, hit0);
    ClaimsIfItCan(env, After(env, s, w, 3), w, s2, 2, hit0 || hit1);
    if hit0 || hit1 || s2 == Chunked {
      RecordsIt(env, After(env, s, w, 4), w, true);
      StaysDone(env, After(env, s, w, 5), w, Failed);
    } else {
      ChecksIt(env, After(env, s, w, 4), w);
      RecordsIt(env, After(env, s, w, 5), w, false);
    }
    AllAnswers(env, s, w);
    ReachingIs(After(env, s, w, 6), w, Failed, Done(RaisedError));
  }

  lemma BeginsGivingUp(env: Env, s: State, w: nat, status: Status)
    requires w in s.deliveries && s.deliveries[w].pc == Begin
    requires RecorderReaches(s.tables, s.deliveries[w].job, s.deliveries[w].finalAttempt)
    requires status == s.tables[s.deliveries[w].job.document.parsed.value].row.status
    ensures Reaching(StepDelivery(env, s, w, Raises({})), w, status, GivingUp(0, false))
  {
    hide StepDelivery;
    BeginningIs(env, s, w, Raises({}));
  }

  lemma StaysDone(env: Env, s: State, w: nat, status: Status)
    requires Reaching(s, w, status, Done(RaisedError))
    ensures StepDelivery(env, s, w, Succeeds) == s
  {
  }

  lemma {:induction false} AllAnswers(env: Env, s: State, w: nat)
    requires w in s.deliveries
    ensures After(env, s, w, 6) == Alone(env, s, w, GivesUpOnIt)
  {
    hide Alone;
    assert GivesUpOnIt[..6] == GivesUpOnIt;
  }

  lemma ReachingIs(s: State, w: nat, status: Status, pc: Pc)
    requires Reaching(s, w, status, pc)
    ensures w in s.deliveries && s.deliveries[w].job.document.parsed.Some?
    ensures s.deliveries[w].job.document.parsed.value in s.tables
    ensures s.tables[s.deliveries[w].job.document.parsed.value].row.status == status
  {
  }

  /**
   The exact condition. A delivery about to begin, whose job disagrees with its row, can change either store
   if and only if the recorder reaches the row; and then it can fail it.
   */
  lemma DisagreeingJobFailsIff(env: Env, s: State, w: nat)
    requires w in s.deliveries && s.deliveries[w].pc == Begin && Disagrees(s.tables, s.deliveries[w].job)
    ensures var d := s.deliveries[w];
            var x := d.job.document.parsed.value;
            var reaches := RecorderReaches(s.tables, d.job, d.finalAttempt);
            && ((exists choices :: var r := Alone(env, s, w, choices); r.tables != s.tables || r.points != s.points)
                <==> reaches)
            && ((exists choices :: var r := Alone(env, s, w, choices);
                                   && r.tables != s.tables && x in r.tables && r.tables[x].row.status == Failed
                                   && r.tables[x].row.failureReason == Some(ProcessingFailure))
                <==> reaches)
  {
    hide Alone, Disagrees, KeyDerived, Owned;
    if RecorderReaches(s.tables, s.deliveries[w].job, s.deliveries[w].finalAttempt) {
      ReachedIsFailed(env, s, w);
      DisagreesIsThere(s.tables, s.deliveries[w].job);
      var r := Alone(env, s, w, GivesUpOnIt);
      assert r.tables != s.tables;
    } else {
      forall choices
        ensures var r := Alone(env, s, w, choices); r.tables == s.tables && r.points == s.points
      {
        AloneIsHarmless(env, s, w, choices);
      }
    }
  }

  lemma DisagreesIsThere(t: Tables, job: Job)
    requires Disagrees(t, job)
    ensures job.document.parsed.Some? && job.document.parsed.value in t
  {
  }

  // --- a run that fails another job's document ---------------------------------------------

  const TheRow: Document :=
    Document(1, Pending, None, 0, Some(Key(1, 5)), Some(Sha256(5)), Some(Pdf), Some(1), 0, false)

  /** The right document, the right owner, a key that is the job's own, and another content. */
  const TheJob: Job := Job(Canonical(7), Canonical(1), Key(1, 6), Sha256(6), Pdf)

  const TheUpload: seq<Event> := [Upload(7, TheRow)]

  /**
   The failing input: a last attempt for another content meets an error in `ingest`, and the document it was
   never about is recorded as failed.
   */
  lemma GivingUpFailsAnotherContent(env: Env, config: Config) returns (events: seq<Event>)
    ensures forall i | 0 <= i < |events| && events[i].Deliver? :: events[i].job == TheJob
    ensures JobDisagreesWith(TheJob, TheRow) == Some(ContentHashMismatch)
    ensures var s := Run(env, Empty, events);
            && 7 in s.tables && s.tables[7].row.status == Failed
            && s.tables[7].row.failureReason == Some(ProcessingFailure)
            && SameColumns(TheRow, s.tables[7].row)
  {
    hide Run, Alone;
    var begun := TheUpload + [Deliver(0, TheJob, config, true)];
    var s := State(map[7 := Entry(TheRow, [], [])], map[], 0,
                   map[0 := Delivery(TheJob, config, true, 0, None, Begin)]);
    Begun(env, config);
    ReachedIsFailed(env, s, 0);
    AloneIsARun(env, s, 0, GivesUpOnIt);
    RunGoesOn(env, Empty, begun, StepsOf(0, GivesUpOnIt));
    events := begun + StepsOf(0, GivesUpOnIt);
    RunKeepsColumns(env, s, StepsOf(0, GivesUpOnIt));
  }

  lemma {:induction false} Begun(env: Env, config: Config)
    ensures Run(env, Empty, TheUpload + [Deliver(0, TheJob, config, true)])
            == State(map[7 := Entry(TheRow, [], [])], map[], 0,
                     map[0 := Delivery(TheJob, config, true, 0, None, Begin)])
  {
    var events := TheUpload + [Deliver(0, TheJob, config, true)];
    assert events[..1] == TheUpload && TheUpload[..0] == [];
    assert Run(env, Empty, []) == Empty;
    assert Run(env, Empty, TheUpload) == State(map[7 := Entry(TheRow, [], [])], map[], 0, map[]);
  }

  lemma {:induction false} RunKeepsColumns(env: Env, s: State, events: seq<Event>)
    ensures ColumnsStay(s.tables, Run(env, s, events).tables)
    decreases |events|
  {
    hide Apply;
    if events != [] {
      var front, e := events[..|events| - 1], events[|events| - 1];
      RunKeepsColumns(env, s, front);
      ApplyKeepsColumns(env, Run(env, s, front), e);
    }
  }

  lemma ApplyKeepsColumns(env: Env, s: State, e: Event)
    ensures ColumnsStay(s.tables, Apply(env, s, e).tables)
  {
    hide StepDelivery, ColumnsStay, CancelDelivery, KillDelivery, FailStale, SoftDelete, UniqueContent, NewRow;
    SameColumnsStay(s.tables);
    if e.Step? {
      if e.delivery in s.deliveries {
        StepKeepsColumns(env, s, e.delivery, e.choice);
      }
    } else {
      OtherEventsKeepColumns(env, s, e);
    }
  }
}
