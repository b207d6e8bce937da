/** Documents only move forward: what each event may do to an entry, and what whole runs may do. */
module PipelineProgress {
  import opened Identifiers
  import opened Text
  import opened Tables
  import opened VectorIndex
  import opened Pipeline
  import opened PipelineInvariant
  import opened PipelineSteps
  import opened PipelineSafety

  /** From `e` to `f`: columns fixed, data never lost, terminal statuses and deletion absorbing. */
  predicate Advances(e: Entry, f: Entry) {
    && SameColumns(e.row, f.row)
    && (e.pages != [] ==> f.pages == e.pages)
    && (e.chunks != [] ==> f.chunks != [])
    && (e.row.status == Ready || e.row.status == Failed ==>
          && f.row.status == e.row.status && f.row.failureReason == e.row.failureReason
          && f.row.chunkCount == e.row.chunkCount && f.pages == e.pages && f.chunks == e.chunks)
    && (e.row.deleted ==> f == e)
  }

  predicate TablesAdvance(t: Tables, u: Tables) {
    forall x | x in t :: x in u && Advances(t[x], u[x])
  }

  /** How far a document's stored data has come. */
  function Progress(e: Entry): nat {
    if e.row.status == Ready then 3 else if e.chunks != [] then 2 else if e.pages != [] then 1 else 0
  }

  predicate Resting(status: Status) {
    status == Pending || status == Parsed || status == Chunked || status == Ready
  }

  function Rank(status: Status): nat {
    match status
    case Pending => 0
    case Processing => 0
    case Parsed => 1
    case Chunked => 2
    case Ready => 3
    case Failed => 4
  }

  lemma CasAdvances(s: State, w: nat, expected: Status, next: Status, reason: Option<Reason>, moved: Pc, lost: Pc)
    requires w in s.deliveries && expected != Ready && expected != Failed
    ensures TablesAdvance(s.tables, Cas(s, w, expected, next, reason, moved, lost).tables)
  {
  }

  lemma SameAdvances(t: Tables)
    ensures TablesAdvance(t, t)
  {
  }

  lemma EntryAdvances(t: Tables, x: Uuid, f: Entry)
    requires x in t && Advances(t[x], f)
    ensures TablesAdvance(t, t[x := f])
  {
  }

  lemma StoreParsedAdvances(env: Env, s: State, w: nat, choice: Choice)
    requires Inv(env, s) && w in s.deliveries && s.deliveries[w].pc.StoringParsed?
    ensures TablesAdvance(s.tables, ParseStep(env, s, w, choice).tables)
  {
    hide Inv, StoreParsed, DeliveryOk, Transient;
    var d := s.deliveries[w];
    HolderBasics(env, s, w);
    var x := d.job.document.parsed.value;
    if Matches(s.tables, d.job.document, d.job.owner, Processing) {
      StoreParsedIs(s.tables, s.now, d.job, d.pc.extracted);
      EntryAdvances(s.tables, x, Entry(Moved(s.tables[x].row, s.now, Parsed, None), d.pc.extracted, s.tables[x].chunks));
    } else {
      StoreParsedMisses(s.tables, s.now, d.job, d.pc.extracted);
    }
  }

  lemma StoreChunksAdvances(env: Env, s: State, w: nat, choice: Choice)
    requires Inv(env, s) && w in s.deliveries && s.deliveries[w].pc.StoringChunks?
    ensures TablesAdvance(s.tables, ChunkStep(env, s, w, choice).tables)
  {
    hide Inv, StoreChunks, DeliveryOk, Transient;
    var d := s.deliveries[w];
    HolderBasics(env, s, w);
    var x := d.job.document.parsed.value;
    if Matches(s.tables, d.job.document, d.job.owner, Processing) {
      StoreChunksIs(s.tables, s.now, d.job, d.config, d.pc.made);
      EntryAdvances(s.tables, x, Rechunked(s.tables[x], s.now, Chunked, d.pc.made, d.config.version));
    } else {
      StoreChunksMisses(s.tables, s.now, d.job, d.config, d.pc.made);
    }
  }

  lemma ReplaceChunksAdvances(env: Env, s: State, w: nat, choice: Choice)
    requires Inv(env, s) && w in s.deliveries && s.deliveries[w].pc.ReplacingChunks?
    ensures TablesAdvance(s.tables, RechunkStep(env, s, w, choice).tables)
  {
    hide Inv, ReplaceChunks, DeliveryOk, Transient, DocumentOk;
    var d := s.deliveries[w];
    HolderMade(env, s, w, d.pc.made);
    HolderBasics(env, s, w);
    var x := d.job.document.parsed.value;
    if Matches(s.tables, d.job.document, d.job.owner, Processing) {
      ReplaceChunksIs(s.tables, s.now, d.job, d.config, d.pc.made);
      EntryAdvances(s.tables, x, Rechunked(s.tables[x], s.now, Processing, d.pc.made, d.config.version));
    } else {
      ReplaceChunksMisses(s.tables, s.now, d.job, d.config, d.pc.made);
    }
  }

  lemma StoreReadyAdvances(env: Env, s: State, w: nat, choice: Choice)
    requires Inv(env, s) && w in s.deliveries && s.deliveries[w].pc == StoringReady
    ensures TablesAdvance(s.tables, EmbedStep(env, s, w, choice).tables)
  {
    hide Inv, StoreReady, DeliveryOk, Transient;
    var d := s.deliveries[w];
    HolderBasics(env, s, w);
    var x := d.job.document.parsed.value;
    if Matches(s.tables, d.job.document, d.job.owner, Processing) {
      StoreReadyIs(s.tables, s.now, d.job, d.config);
      EntryAdvances(s.tables, x, ReadyEntry(s.tables[x], s.now, d.config.embedding));
    } else {
      StoreReadyMisses(s.tables, s.now, d.job, d.config);
    }
  }

  lemma ClaimStepAdvances(s: State, w: nat, choice: Choice)
    requires w in s.deliveries
    ensures TablesAdvance(s.tables, ClaimStep(s, w, choice).tables)
  {
    hide Admission, Entered, Unclassified, TablesAdvance, Cas;
    var d := s.deliveries[w];
    SameAdvances(s.tables);
    match d.pc {
      case Claiming(stage) =>
        CasAdvances(s, w, StartsAt(stage), Processing, None, Entered(d, stage), Done(Returned(SkippedInProgress)));
      case Failing(_, reason) =>
        CasAdvances(s, w, Processing, Failed, Some(reason), Done(Returned(HasFailed(reason))), Done(Returned(ClaimLost)));
      case Releasing(stage, reason) =>
        CasAdvances(s, w, Processing, StartsAt(stage), None, Done(RaisedTransient(stage, reason)), Done(Returned(ClaimLost)));
      case Interrupted(stage) =>
        CasAdvances(s, w, Processing, StartsAt(stage), None, Done(WasCancelled), Done(WasCancelled));
      case _ =>
    }
  }

  lemma GiveUpStepAdvances(s: State, w: nat, choice: Choice)
    requires w in s.deliveries
    ensures TablesAdvance(s.tables, GiveUpStep(s, w, choice).tables)
  {
    hide TablesAdvance, Cas;
    SameAdvances(s.tables);
    match s.deliveries[w].pc {
      case GivingUp(tried, claimed) =>
        var moved := if tried < 2 then GivingUp(tried + 1, true) else RecordingGivenUp(true);
        var lost := if tried < 2 then GivingUp(tried + 1, claimed)
                    else if claimed then RecordingGivenUp(true) else CheckingProcessing;
        CasAdvances(s, w, Recoverable(tried), Processing, None, moved, lost);
      case RecordingGivenUp(_) =>
        CasAdvances(s, w, Processing, Failed, Some(ProcessingFailure), Done(RaisedError), Done(RaisedError));
      case _ =>
    }
  }

  /** A step that is no transaction leaves the tables alone. */
  lemma QuietStep(env: Env, s: State, w: nat, choice: Choice)
    requires w in s.deliveries
    ensures !s.deliveries[w].pc.StoringParsed? ==> ParseStep(env, s, w, choice).tables == s.tables
    ensures !s.deliveries[w].pc.StoringChunks? ==> ChunkStep(env, s, w, choice).tables == s.tables
    ensures !s.deliveries[w].pc.ReplacingChunks? ==> RechunkStep(env, s, w, choice).tables == s.tables
    ensures !s.deliveries[w].pc.StoringReady? ==> EmbedStep(env, s, w, choice).tables == s.tables
  {
    hide Transient, Unclassified, RecordsFor, HasText, Provenance, PartialEffect, WithoutDocument;
  }

  lemma StepAdvances(env: Env, s: State, w: nat, choice: Choice)
    requires Inv(env, s) && w in s.deliveries
    ensures TablesAdvance(s.tables, StepDelivery(env, s, w, choice).tables)
  {
    hide Inv, ParseStep, ChunkStep, RechunkStep, EmbedStep, ClaimStep, GiveUpStep, TablesAdvance;
    SameAdvances(s.tables);
    QuietStep(env, s, w, choice);
    ClaimStepAdvances(s, w, choice);
    GiveUpStepAdvances(s, w, choice);
    match s.deliveries[w].pc {
      case StoringParsed(_) => StoreParsedAdvances(env, s, w, choice);
      case StoringChunks(_) => StoreChunksAdvances(env, s, w, choice);
      case ReplacingChunks(_) => ReplaceChunksAdvances(env, s, w, choice);
      case StoringReady => StoreReadyAdvances(env, s, w, choice);
      case _ =>
    }
  }

  lemma ApplyAdvances(env: Env, s: State, e: Event)
    requires Inv(env, s)
    ensures TablesAdvance(s.tables, Apply(env, s, e).tables)
  {
    hide Inv, StepDelivery, PartialEffect, UniqueContent;
    if e.Step? && e.delivery in s.deliveries {
      StepAdvances(env, s, e.delivery, e.choice);
    }
  }

  lemma AdvancesTransitively(t: Tables, u: Tables, v: Tables)
    requires TablesAdvance(t, u) && TablesAdvance(u, v)
    ensures TablesAdvance(t, v)
  {
  }

  lemma {:induction false} RunAdvances(env: Env, s: State, events: seq<Event>)
    requires GoodEnv(env) && Inv(env, s) && AlikeJobs(env, events)
    ensures TablesAdvance(s.tables, Run(env, s, events).tables)
    decreases |events|
  {
    if events != [] {
      var before := Run(env, s, events[..|events| - 1]);
      RunInv(env, s, events[..|events| - 1]);
      RunAdvances(env, s, events[..|events| - 1]);
      ApplyAdvances(env, before, events[|events| - 1]);
      AdvancesTransitively(s.tables, before.tables, Run(env, s, events).tables);
    }
  }

  /** At rest, a status says exactly how far the data has come. */
  lemma RestingRank(env: Env, s: State, x: Uuid)
    requires Inv(env, s) && x in s.tables && Resting(s.tables[x].row.status)
    ensures Rank(s.tables[x].row.status) == Progress(s.tables[x])
  {
    DocumentFacts(env, s, x);
  }

  lemma ProgressGrows(e: Entry, f: Entry)
    requires Advances(e, f)
    ensures Progress(e) <= Progress(f)
  {
  }
}
