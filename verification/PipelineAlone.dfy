/** One delivery without interference: how it settles, and what it leaves. */
module PipelineAlone {
  import opened Identifiers
  import opened Text
  import opened Tables
  import opened VectorIndex
  import opened Pipeline
  import opened PipelineInvariant
  import opened PipelineSteps
  import opened PipelineSafety

  /** The state after delivery `w` alone has taken these steps. */
  function Alone(env: Env, s: State, w: nat, choices: seq<Choice>): (r: State)
    requires w in s.deliveries
    ensures w in r.deliveries
    decreases |choices|
  {
    if choices == [] then s
    else
      var before := Alone(env, s, w, choices[..|choices| - 1]);
      var r := StepDelivery(env, before, w, choices[|choices| - 1]);
      KeepsDeliveries(env, before, w, choices[|choices| - 1]);
      r
  }

  /** `w`'s counter may differ, and its view of the page count; no other delivery, job or configuration. */
  predicate Keeps(s: State, r: State, w: nat)
    requires w in s.deliveries
  {
    && w in r.deliveries
    && r.now == s.now
    && r.deliveries == s.deliveries[w := r.deliveries[w]]
    && r.deliveries[w] == s.deliveries[w].(pc := r.deliveries[w].pc, pageCount := r.deliveries[w].pageCount)
  }

  /** Moving the delivery keeps the others, whatever was done to the stores. */
  lemma MovingKeeps(s: State, w: nat)
    requires w in s.deliveries
    ensures forall r: State, pc: Pc | r.deliveries == s.deliveries && r.now == s.now :: Keeps(s, At(r, w, pc), w)
  {
  }

  lemma StagesKeep(env: Env, s: State, w: nat, choice: Choice)
    requires w in s.deliveries
    ensures Keeps(s, ParseStep(env, s, w, choice), w) && Keeps(s, ChunkStep(env, s, w, choice), w)
  {
    hide Transient, Unclassified, StoreParsed, StoreChunks, HasText, ListPages, At, Keeps;
    MovingKeeps(s, w);
    SelfKeeps(s, w);
  }

  lemma RechunkKeeps(env: Env, s: State, w: nat, choice: Choice)
    requires w in s.deliveries
    ensures Keeps(s, RechunkStep(env, s, w, choice), w)
  {
    hide Transient, Unclassified, ReplaceChunks, PartialEffect, WithoutDocument, ListPages, At, Keeps;
    MovingKeeps(s, w);
    SelfKeeps(s, w);
  }

  lemma EmbedKeeps(env: Env, s: State, w: nat, choice: Choice)
    requires w in s.deliveries
    ensures Keeps(s, EmbedStep(env, s, w, choice), w)
  {
    hide Transient, Unclassified, StoreReady, RecordsFor, Provenance, PartialEffect, ListChunks, At, Keeps;
    MovingKeeps(s, w);
    SelfKeeps(s, w);
  }

  lemma AdmittingKeeps(s: State, w: nat)
    requires w in s.deliveries
    ensures forall pc: Pc, pages: Option<nat> ::
              Keeps(s, s.(deliveries := s.deliveries[w := s.deliveries[w].(pc := pc, pageCount := pages)]), w)
  {
  }

  lemma CasKeeps(s: State, w: nat)
    requires w in s.deliveries
    ensures forall expected, next, reason, moved, lost :: Keeps(s, Cas(s, w, expected, next, reason, moved, lost), w)
  {
    hide Transition;
  }

  lemma ClaimsKeep(s: State, w: nat, choice: Choice)
    requires w in s.deliveries
    ensures Keeps(s, ClaimStep(s, w, choice), w) && Keeps(s, GiveUpStep(s, w, choice), w)
  {
    hide Admission, Entered, Unclassified, Cas, Matches, At, Keeps;
    MovingKeeps(s, w);
    CasKeeps(s, w);
    SelfKeeps(s, w);
    AdmittingKeeps(s, w);
  }

  /** A step moves its own delivery and no other, and changes neither its job nor its configuration. */
  lemma KeepsDeliveries(env: Env, s: State, w: nat, choice: Choice)
    requires w in s.deliveries
    ensures Keeps(s, StepDelivery(env, s, w, choice), w)
  {
    hide ParseStep, ChunkStep, RechunkStep, EmbedStep, ClaimStep, GiveUpStep, Keeps;
    StagesKeep(env, s, w, choice);
    RechunkKeeps(env, s, w, choice);
    EmbedKeeps(env, s, w, choice);
    ClaimsKeep(s, w, choice);
    SelfKeeps(s, w);
  }

  lemma SelfKeeps(s: State, w: nat)
    requires w in s.deliveries
    ensures Keeps(s, s, w)
  {
  }

  /** Where the service catches whatever the call raises. */
  predicate Catches(pc: Pc) {
    || pc.Fetching? || pc.Extracting? || pc.StoringParsed? || pc.MakingChunks? || pc.StoringChunks?
    || pc.RemakingChunks? || pc.ReplacingChunks? || pc.StoringReady?
  }

  /** No call raises what the service does not expect of it. */
  ghost predicate Declared(env: Env, s: State, w: nat, choices: seq<Choice>)
    requires w in s.deliveries
  {
    forall i | 0 <= i < |choices| ::
      choices[i].Raises? ==> Catches(Alone(env, s, w, choices[..i]).deliveries[w].pc)
  }

  /** Steps left, at most. */
  function Remaining(pc: Pc): nat {
    match pc
    case Begin => 20
    case Claiming(stage) => (match stage case ParseStage => 19 case ChunkStage => 15 case EmbedStage => 11)
    case Fetching => 18
    case Extracting => 17
    case StoringParsed(_) => 16
    case ReadingPages => 14
    case MakingChunks(_) => 13
    case StoringChunks(_) => 12
    case CheckingProvenance => 10
    case ReadingPagesAgain => 9
    case RemakingChunks(_) => 8
    case DeletingVectors(_) => 7
    case ReplacingChunks(_) => 6
    case ListingChunks => 5
    case EmbeddingText(_) => 4
    case Upserting(_) => 3
    case StoringReady => 2
    case Done(_) => 0
    case _ => 1
  }

  /** The status that goes with each place a delivery can be when nothing interferes. */
  predicate Fitting(d: Delivery, status: Status) {
    match d.pc
    case Begin => status != Processing
    case Claiming(stage) => status == StartsAt(stage)
    case GivingUp(_, _) => false
    case CheckingProcessing => false
    case RecordingGivenUp(_) => false
    case Interrupted(_) => false
    case Releasing(_, _) => status == Processing && !d.finalAttempt
    case Done(Returned(BecameReady)) => status == Ready
    case Done(Returned(HasFailed(_))) => status == Failed
    case Done(Returned(SkippedTerminal)) => status == Ready || status == Failed
    case Done(RaisedTransient(stage, _)) => status == StartsAt(stage) && !d.finalAttempt
    case Done(_) => false
    case _ => status == Processing
  }

  /** A live row that this delivery's job names and agrees with. */
  predicate Agreed(t: Tables, job: Job) {
    && Owned(t, job.document, job.owner)
    && JobDisagreesWith(job, t[job.document.parsed.value].row) == None
    && StorageKeyFor(job.owner, job.contentHash) == Some(job.storageKey)
  }

  predicate InStep(s: State, w: nat) {
    && w in s.deliveries
    && Agreed(s.tables, s.deliveries[w].job)
    && Fitting(s.deliveries[w], s.tables[s.deliveries[w].job.document.parsed.value].row.status)
  }

  lemma CasAlone(s: State, w: nat, expected: Status, next: Status, reason: Option<Reason>, moved: Pc, lost: Pc)
    requires w in s.deliveries && Agreed(s.tables, s.deliveries[w].job)
    requires s.tables[s.deliveries[w].job.document.parsed.value].row.status == expected
    requires Fitting(s.deliveries[w].(pc := moved), next)
    ensures InStep(Cas(s, w, expected, next, reason, moved, lost), w)
    ensures Cas(s, w, expected, next, reason, moved, lost).deliveries[w].pc == moved
  {
  }

  lemma TransientFits(d: Delivery, stage: Stage, reason: Reason)
    ensures Fitting(d.(pc := Transient(d, stage, reason)), Processing)
    ensures Remaining(Transient(d, stage, reason)) == 1
    ensures Transient(d, stage, reason).Failing? || Transient(d, stage, reason).Releasing?
  {
  }

  /** One step keeps the status in agreement and comes closer to the end. */
  predicate Closer(s: State, r: State, w: nat) {
    && InStep(r, w) && w in s.deliveries
    && Remaining(r.deliveries[w].pc) < Remaining(s.deliveries[w].pc)
  }

  /** Moving on without touching the tables, to where the status fits, comes closer. */
  lemma MovingCloser(s: State, w: nat)
    requires InStep(s, w)
    ensures var d := s.deliveries[w];
            var status := s.tables[d.job.document.parsed.value].row.status;
            forall r: State, pc: Pc
              | r.deliveries == s.deliveries && r.tables == s.tables
                && Fitting(d.(pc := pc), status) && Remaining(pc) < Remaining(d.pc) ::
              Closer(s, At(r, w, pc), w)
  {
    hide Fitting, Remaining, JobDisagreesWith, StorageKeyFor;
  }

  /** So does moving on with the document's entry replaced. */
  lemma EntryAlone(s: State, w: nat, x: Uuid, e: Entry, pc: Pc)
    requires w in s.deliveries && Agreed(s.tables, s.deliveries[w].job)
    requires s.deliveries[w].job.document.parsed == Some(x)
    requires SameColumns(s.tables[x].row, e.row) && !e.row.deleted
    requires Fitting(s.deliveries[w].(pc := pc), e.row.status)
    requires Remaining(pc) < Remaining(s.deliveries[w].pc)
    ensures Closer(s, At(s.(tables := s.tables[x := e]), w, pc), w)
  {
    hide Fitting, Remaining, StorageKeyFor;
  }

  /** And a compare-and-set that matches. */
  lemma CasCloser(s: State, w: nat, expected: Status, next: Status, reason: Option<Reason>, moved: Pc, lost: Pc)
    requires w in s.deliveries && Agreed(s.tables, s.deliveries[w].job)
    requires s.tables[s.deliveries[w].job.document.parsed.value].row.status == expected
    requires Fitting(s.deliveries[w].(pc := moved), next) && Remaining(moved) < Remaining(s.deliveries[w].pc)
    ensures Closer(s, Cas(s, w, expected, next, reason, moved, lost), w)
  {
    hide Fitting, Remaining, Agreed, Cas;
    CasAlone(s, w, expected, next, reason, moved, lost);
  }

  lemma ParseAlone(env: Env, s: State, w: nat, choice: Choice)
    requires Inv(env, s) && InStep(s, w)
    requires s.deliveries[w].pc.Fetching? || s.deliveries[w].pc.Extracting? || s.deliveries[w].pc.StoringParsed?
    ensures Closer(s, ParseStep(env, s, w, choice), w)
  {
    hide Inv, StoreParsed, Transient, DeliveryOk, HasText, At, Closer;
    MovingCloser(s, w);
    var d := s.deliveries[w];
    TransientFits(d, ParseStage, StorageReadFailure);
    TransientFits(d, ParseStage, ProcessingFailure);
    TransientFits(d, ParseStage, ParserUnavailable);
    if d.pc.StoringParsed? {
      HolderBasics(env, s, w);
      var x := d.job.document.parsed.value;
      StoreParsedIs(s.tables, s.now, d.job, d.pc.extracted);
      EntryAlone(s, w, x, Entry(Moved(s.tables[x].row, s.now, Parsed, None), d.pc.extracted, s.tables[x].chunks),
                 Claiming(ChunkStage));
    }
  }

  lemma ChunkAlone(env: Env, s: State, w: nat, choice: Choice)
    requires Inv(env, s) && InStep(s, w)
    requires s.deliveries[w].pc.ReadingPages? || s.deliveries[w].pc.MakingChunks? || s.deliveries[w].pc.StoringChunks?
    requires choice.Raises? ==> Catches(s.deliveries[w].pc)
    ensures Closer(s, ChunkStep(env, s, w, choice), w)
  {
    hide Inv, StoreChunks, Transient, DeliveryOk, At, Closer;
    MovingCloser(s, w);
    var d := s.deliveries[w];
    TransientFits(d, ChunkStage, ChunkingFailure);
    if d.pc.StoringChunks? {
      HolderBasics(env, s, w);
      var x := d.job.document.parsed.value;
      StoreChunksIs(s.tables, s.now, d.job, d.config, d.pc.made);
      EntryAlone(s, w, x, Rechunked(s.tables[x], s.now, Chunked, d.pc.made, d.config.version), Claiming(EmbedStage));
    }
  }

  lemma RechunkAlone(env: Env, s: State, w: nat, choice: Choice)
    requires Inv(env, s) && InStep(s, w)
    requires s.deliveries[w].pc.ReadingPagesAgain? || s.deliveries[w].pc.RemakingChunks?
             || s.deliveries[w].pc.DeletingVectors? || s.deliveries[w].pc.ReplacingChunks?
    requires choice.Raises? ==> Catches(s.deliveries[w].pc)
    ensures Closer(s, RechunkStep(env, s, w, choice), w)
  {
    hide Inv, ReplaceChunks, Transient, PartialEffect, WithoutDocument, At, Closer;
    MovingCloser(s, w);
    var d := s.deliveries[w];
    TransientFits(d, EmbedStage, ChunkingFailure);
    TransientFits(d, EmbedStage, VectorStoreFailure);
    if d.pc.ReplacingChunks? {
      var x := d.job.document.parsed.value;
      ReplaceChunksIs(s.tables, s.now, d.job, d.config, d.pc.made);
      EntryAlone(s, w, x, Rechunked(s.tables[x], s.now, Processing, d.pc.made, d.config.version), ListingChunks);
    }
  }

  lemma EmbedAlone(env: Env, s: State, w: nat, choice: Choice)
    requires InStep(s, w)
    requires s.deliveries[w].pc.CheckingProvenance? || s.deliveries[w].pc.ListingChunks?
    requires !choice.Raises?
    ensures Closer(s, EmbedStep(env, s, w, choice), w)
  {
    hide Provenance, ListChunks, At, Closer;
    MovingCloser(s, w);
  }

  lemma IndexAlone(env: Env, s: State, w: nat, choice: Choice)
    requires InStep(s, w)
    requires s.deliveries[w].pc.EmbeddingText? || s.deliveries[w].pc.Upserting?
    requires !choice.Raises?
    ensures Closer(s, EmbedStep(env, s, w, choice), w)
  {
    hide Transient, PartialEffect, RecordsFor, At, Closer;
    MovingCloser(s, w);
    TransientFits(s.deliveries[w], EmbedStage, EmbeddingFailure);
    TransientFits(s.deliveries[w], EmbedStage, VectorStoreFailure);
  }

  lemma ReadyAlone(env: Env, s: State, w: nat, choice: Choice)
    requires InStep(s, w) && s.deliveries[w].pc.StoringReady?
    ensures Closer(s, EmbedStep(env, s, w, choice), w)
  {
    hide StoreReady, Transient, At, Closer;
    MovingCloser(s, w);
    var d := s.deliveries[w];
    TransientFits(d, EmbedStage, ProcessingFailure);
    var x := d.job.document.parsed.value;
    StoreReadyIs(s.tables, s.now, d.job, d.config);
    EntryAlone(s, w, x, ReadyEntry(s.tables[x], s.now, d.config.embedding), Done(Returned(BecameReady)));
  }

  lemma ClaimAlone(env: Env, s: State, w: nat, choice: Choice)
    requires InStep(s, w)
    requires s.deliveries[w].pc.Begin? || s.deliveries[w].pc.Claiming? || s.deliveries[w].pc.Failing?
             || s.deliveries[w].pc.Releasing?
    requires !choice.Raises?
    ensures Closer(s, ClaimStep(s, w, choice), w)
  {
    hide Cas, Closer, Agreed, Admission, At;
    var d := s.deliveries[w];
    match d.pc {
      case Begin => AdmittingCloser(s, w, choice);
      case Claiming(stage) =>
        CasCloser(s, w, StartsAt(stage), Processing, None, Entered(d, stage), Done(Returned(SkippedInProgress)));
      case Failing(_, reason) =>
        CasCloser(s, w, Processing, Failed, Some(reason), Done(Returned(HasFailed(reason))), Done(Returned(ClaimLost)));
      case Releasing(stage, reason) =>
        CasCloser(s, w, Processing, StartsAt(stage), None, Done(RaisedTransient(stage, reason)), Done(Returned(ClaimLost)));
    }
  }

  lemma AdmittingCloser(s: State, w: nat, choice: Choice)
    requires InStep(s, w) && s.deliveries[w].pc.Begin? && !choice.Raises?
    ensures Closer(s, ClaimStep(s, w, choice), w)
  {
    hide At, Cas, Unclassified, Entered;
  }

  lemma StepAlone(env: Env, s: State, w: nat, choice: Choice)
    requires Inv(env, s) && InStep(s, w)
    requires choice.Raises? ==> Catches(s.deliveries[w].pc)
    ensures var r := StepDelivery(env, s, w, choice);
            if s.deliveries[w].pc.Done? then r == s else Closer(s, r, w)
  {
    hide Inv, ParseStep, ChunkStep, RechunkStep, EmbedStep, ClaimStep, Closer, Agreed;
    match s.deliveries[w].pc {
      case Fetching => ParseAlone(env, s, w, choice);
      case Extracting => ParseAlone(env, s, w, choice);
      case StoringParsed(_) => ParseAlone(env, s, w, choice);
      case ReadingPages => ChunkAlone(env, s, w, choice);
      case MakingChunks(_) => ChunkAlone(env, s, w, choice);
      case StoringChunks(_) => ChunkAlone(env, s, w, choice);
      case ReadingPagesAgain => RechunkAlone(env, s, w, choice);
      case RemakingChunks(_) => RechunkAlone(env, s, w, choice);
      case DeletingVectors(_) => RechunkAlone(env, s, w, choice);
      case ReplacingChunks(_) => RechunkAlone(env, s, w, choice);
      case CheckingProvenance => EmbedAlone(env, s, w, choice);
      case ListingChunks => EmbedAlone(env, s, w, choice);
      case EmbeddingText(_) => IndexAlone(env, s, w, choice);
      case Upserting(_) => IndexAlone(env, s, w, choice);
      case StoringReady => ReadyAlone(env, s, w, choice);
      case Begin => ClaimAlone(env, s, w, choice);
      case Claiming(_) => ClaimAlone(env, s, w, choice);
      case Failing(_, _) => ClaimAlone(env, s, w, choice);
      case Releasing(_, _) => ClaimAlone(env, s, w, choice);
      case _ =>
    }
  }

  lemma {:induction false} AloneSettles(env: Env, s: State, w: nat, choices: seq<Choice>)
    requires GoodEnv(env) && Inv(env, s) && InStep(s, w) && Declared(env, s, w, choices)
    ensures Inv(env, Alone(env, s, w, choices)) && InStep(Alone(env, s, w, choices), w)
    ensures Alone(env, s, w, choices).deliveries[w].pc.Done?
            || Remaining(Alone(env, s, w, choices).deliveries[w].pc) + |choices| <= Remaining(s.deliveries[w].pc)
    ensures Alone(env, s, w, choices).deliveries[w].job == s.deliveries[w].job
    ensures Alone(env, s, w, choices).deliveries[w].config == s.deliveries[w].config
    ensures Alone(env, s, w, choices).deliveries[w].finalAttempt == s.deliveries[w].finalAttempt
    decreases |choices|
  {
    hide Inv, StepDelivery, Fitting, Agreed;
    if choices != [] {
      var front, last := choices[..|choices| - 1], choices[|choices| - 1];
      assert forall i | 0 <= i < |front| :: front[..i] == choices[..i];
      AloneSettles(env, s, w, front);
      var before := Alone(env, s, w, front);
      StepAlone(env, before, w, last);
      StepInv(env, before, w, last);
      KeepsDeliveries(env, before, w, last);
    }
  }
}
