/**
 What the pipeline promises, over whole runs: any number of deliveries of any jobs under any
 configurations, with any faults, interleaved in any order with each other, with cancellations, dying
 processes, the given-up recorder, the reaper, deletes, uploads and the clock.
 */
module PipelineTheorems {
  import opened Identifiers
  import opened Text
  import opened Tables
  import opened VectorIndex
  import opened Pipeline
  import opened PipelineInvariant
  import opened PipelineSteps
  import opened PipelineSafety
  import opened PipelineProgress
  import opened PipelineAlone

  /** Every state of every run in which the jobs of one document spell its id alike. */
  ghost predicate Reached(env: Env, events: seq<Event>, s: State) {
    GoodEnv(env) && AlikeJobs(env, events) && s == Run(env, Empty, events)
  }

  lemma ReachedInv(env: Env, events: seq<Event>, s: State)
    requires Reached(env, events, s)
    ensures Inv(env, s)
  {
    EmptyInv(env);
    RunInv(env, Empty, events);
  }

  // --- ready means exactly indexed ----------------------------------------------------

  /** The chunk rows of a document that `config`'s worker made ready. */
  function FinalChunks(env: Env, hash: Hash, config: Config): seq<ChunkRow> {
    RowsFor(env.chunk(config.version, env.extract(hash)), config.version, Some(config.embedding))
  }

  /** The points of `x` are one per row, under the row's own id, as `embedding` writes them. */
  ghost predicate ExactlyIndexed(env: Env, x: Uuid, owner: Uuid, rows: seq<ChunkRow>, embedding: Embedding, points: Points) {
    && (forall i | 0 <= i < |rows| ::
          && IdOf(x, rows[i]) in points
          && points[IdOf(x, rows[i])] == StoredPoint(env, owner, IdOf(x, rows[i]), rows[i], embedding))
    && (forall i, j | 0 <= i < j < |rows| :: IdOf(x, rows[i]) != IdOf(x, rows[j]))
    && (forall id | id in points && (id.document == x || points[id].payload.document.parsed == Some(x)) ::
          id.index < |rows| && id == IdOf(x, rows[id.index]))
  }

  lemma PointIsOfRow(env: Env, t: Tables, id: ChunkId, p: Point)
    requires PointOk(env, t, id, p)
    ensures id.document in t && id.index < |t[id.document].chunks|
    ensures t[id.document].chunks[id.index].version == id.version && p.payload.document == Spelt(env, id.document)
  {
  }

  lemma ReadyRows(env: Env, s: State, x: Uuid)
    requires GoodEnv(env) && x in s.tables && DocumentOk(env, x, s.tables[x], s.points) && s.tables[x].row.status == Ready
    ensures var e := s.tables[x];
            && e.chunks != [] && e.chunks[0].embedding.Some?
            && (forall i | 0 <= i < |e.chunks| ::
                  && e.chunks[i].chunk.index == i
                  && e.chunks[i].version == e.chunks[0].version && e.chunks[i].embedding == e.chunks[0].embedding)
            && Indexed(env, x, e, s.points, e.chunks[0].embedding.value)
  {
  }

  /**
   A `ready` document has chunks, of one version and one embedding, and the store holds exactly their
   points. Deleting the document afterwards does not change that.
   */
  lemma ReadyIsExactlyIndexed(env: Env, events: seq<Event>, s: State, x: Uuid)
    requires Reached(env, events, s) && x in s.tables && s.tables[x].row.status == Ready
    ensures var e := s.tables[x];
            && e.chunks != []
            && (forall i | 0 <= i < |e.chunks| ::
                  && e.chunks[i].version == e.chunks[0].version
                  && e.chunks[i].embedding == e.chunks[0].embedding && e.chunks[i].embedding.Some?)
            && ExactlyIndexed(env, x, e.row.owner, e.chunks, e.chunks[0].embedding.value, s.points)
  {
    hide Inv, PointOk, DocumentOk, Run;
    ReachedInv(env, events, s);
    DocumentFacts(env, s, x);
    ReadyRows(env, s, x);
    forall id | id in s.points && (id.document == x || s.points[id].payload.document.parsed == Some(x))
      ensures id.index < |s.tables[x].chunks| && id == IdOf(x, s.tables[x].chunks[id.index])
    {
      PointFacts(env, s, id);
      PointIsOfRow(env, s.tables, id, s.points[id]);
    }
  }

  // --- no old generation ----------------------------------------------------------------

  /** Every point is the point of a row its document still has, and `chunk_count` counts those rows. */
  lemma NoOldGeneration(env: Env, events: seq<Event>, s: State)
    requires Reached(env, events, s)
    ensures forall id | id in s.points ::
              && id.document in s.tables
              && s.points[id].payload.document == Spelt(env, id.document)
              && s.points[id].payload.user == Canonical(s.tables[id.document].row.owner)
              && id.index < |s.tables[id.document].chunks|
              && id == IdOf(id.document, s.tables[id.document].chunks[id.index])
    ensures forall x | x in s.tables :: s.tables[x].row.chunkCount == |s.tables[x].chunks|
  {
    ReachedInv(env, events, s);
    forall id | id in s.points
      ensures && id.document in s.tables
              && s.points[id].payload.document == Spelt(env, id.document)
              && s.points[id].payload.user == Canonical(s.tables[id.document].row.owner)
              && id.index < |s.tables[id.document].chunks|
              && id == IdOf(id.document, s.tables[id.document].chunks[id.index])
    {
      PointFacts(env, s, id);
      DocumentFacts(env, s, id.document);
    }
    forall x | x in s.tables
      ensures s.tables[x].row.chunkCount == |s.tables[x].chunks|
    {
      DocumentFacts(env, s, x);
    }
  }

  // --- one holder, at its own stage ------------------------------------------------------

  /** At most one delivery is inside a claimed section of a document, and the data is its stage's. */
  lemma OneHolderAtItsStage(env: Env, events: seq<Event>, s: State, v: nat, w: nat)
    requires Reached(env, events, s) && v in s.deliveries && w in s.deliveries
    requires Holds(s.deliveries[v].pc) && Holds(s.deliveries[w].pc)
    requires s.deliveries[v].job.document.parsed == s.deliveries[w].job.document.parsed
    ensures v == w
    ensures var d := s.deliveries[v];
            && d.job.document.parsed.Some? && d.job.document.parsed.value in s.tables
            && var e := s.tables[d.job.document.parsed.value];
            && (e.row.status == Processing || e.row.status == Failed)
            && (HeldStage(d.pc) == Some(ParseStage) ==> e.pages == [] && e.chunks == [])
            && (HeldStage(d.pc) == Some(ChunkStage) ==> e.pages != [] && e.chunks == [])
            && (HeldStage(d.pc) == Some(EmbedStage) ==> e.pages != [] && e.chunks != [])
  {
    ReachedInv(env, events, s);
    DeliveryFacts(env, s, v);
    DocumentFacts(env, s, s.deliveries[v].job.document.parsed.value);
  }

  /** Each resting status has the data the next stage starts from, so a release never strands a document. */
  lemma StatusesHaveTheirData(env: Env, events: seq<Event>, s: State, x: Uuid)
    requires Reached(env, events, s) && x in s.tables
    ensures var e := s.tables[x];
            && (e.row.status == Pending ==> e.pages == [] && e.chunks == [])
            && (e.row.status == Parsed ==> e.pages != [] && e.chunks == [])
            && (e.row.status == Chunked || e.row.status == Ready ==> e.pages != [] && e.chunks != [])
            && (e.row.status == Failed <==> e.row.failureReason.Some?)
            && e.row.failureReason != Some(NoExtractedPages)
            && e.row.failureReason != Some(NoChunksToEmbed)
  {
    ReachedInv(env, events, s);
    DocumentFacts(env, s, x);
  }

  // --- documents only move forward ----------------------------------------------------------

  /** The run that goes on from where another ended. */
  lemma {:induction false} RunGoesOn(env: Env, s: State, before: seq<Event>, after: seq<Event>)
    ensures Run(env, s, before + after) == Run(env, Run(env, s, before), after)
    decreases |after|
  {
    if after == [] {
      assert before + after == before;
    } else {
      var front := after[..|after| - 1];
      assert (before + after)[..|before + after| - 1] == before + front;
      RunGoesOn(env, s, before, front);
    }
  }

  /**
   Between any two moments of a run, resting statuses do not go back, `ready` and `failed` stay with
   all their data, and a deleted document is never written again.
   */
  lemma StatusesNeverGoBack(env: Env, before: seq<Event>, after: seq<Event>, s: State, r: State, x: Uuid)
    requires Reached(env, before, s) && Reached(env, before + after, r) && x in s.tables
    ensures x in r.tables
    ensures var e, f := s.tables[x], r.tables[x];
            && (Resting(e.row.status) && Resting(f.row.status) ==> Rank(e.row.status) <= Rank(f.row.status))
            && (e.row.status == Ready || e.row.status == Failed ==>
                  && f.row.status == e.row.status && f.row.failureReason == e.row.failureReason
                  && f.pages == e.pages && f.chunks == e.chunks)
            && (e.pages != [] ==> f.pages == e.pages)
            && (e.row.deleted ==> f == e)
            && SameColumns(e.row, f.row)
  {
    hide Inv;
    ReachedInv(env, before, s);
    ReachedInv(env, before + after, r);
    RunGoesOn(env, Empty, before, after);
    assert AlikeJobs(env, after) by {
      assert forall i | 0 <= i < |after| :: after[i] == (before + after)[|before| + i];
    }
    RunAdvances(env, s, after);
    ProgressGrows(s.tables[x], r.tables[x]);
    if Resting(s.tables[x].row.status) {
      RestingRank(env, s, x);
    }
    if Resting(r.tables[x].row.status) {
      RestingRank(env, r, x);
    }
  }

  // --- convergence -------------------------------------------------------------------------------

  /** What a delivery that reports `ready` has made of its document. */
  ghost predicate Delivered(env: Env, s: State, d: Delivery) {
    d.pc == Done(Returned(BecameReady)) ==>
      && d.job.document.parsed.Some? && d.job.document.parsed.value in s.tables
      && var e := s.tables[d.job.document.parsed.value];
      && e.row.status == Ready && d.job.owner == Canonical(e.row.owner)
      && e.pages == env.extract(d.job.contentHash)
      && e.chunks == FinalChunks(env, d.job.contentHash, d.config)
  }

  ghost predicate AllDelivered(env: Env, s: State) {
    forall w | w in s.deliveries :: Delivered(env, s, s.deliveries[w])
  }

  predicate IsReady(s: State, w: nat) {
    w in s.deliveries && s.deliveries[w].pc == Done(Returned(BecameReady))
  }

  lemma EarlierStagesAreNotReady(env: Env, s: State, w: nat, choice: Choice)
    requires w in s.deliveries && !IsReady(s, w)
    ensures !IsReady(ParseStep(env, s, w, choice), w)
    ensures !IsReady(ChunkStep(env, s, w, choice), w)
    ensures !IsReady(RechunkStep(env, s, w, choice), w)
  {
    hide StoreParsed, StoreChunks, ReplaceChunks, PartialEffect, WithoutDocument, ListPages, HasText, At;
    MovesTo(w);
  }

  lemma ClaimsAreNotReady(s: State, w: nat, choice: Choice)
    requires w in s.deliveries && !IsReady(s, w)
    ensures !IsReady(ClaimStep(s, w, choice), w)
    ensures !IsReady(GiveUpStep(s, w, choice), w)
  {
    hide At, Cas, Matches;
    MovesTo(w);
    CasMovesTo(w);
  }

  lemma OnlyTheLastEmbedIsReady(env: Env, s: State, w: nat, choice: Choice)
    requires w in s.deliveries && !IsReady(s, w) && IsReady(EmbedStep(env, s, w, choice), w)
    ensures s.deliveries[w].pc == StoringReady && !choice.Raises?
  {
    hide StoreReady, RecordsFor, Provenance, PartialEffect, ListChunks, At;
    MovesTo(w);
  }

  /** Only the transaction of `_store_ready` ends a delivery with `ready`. */
  lemma OnlyStoreReady(env: Env, s: State, w: nat, choice: Choice)
    requires w in s.deliveries && !IsReady(s, w) && IsReady(StepDelivery(env, s, w, choice), w)
    ensures s.deliveries[w].pc == StoringReady && !choice.Raises?
  {
    hide ParseStep, ChunkStep, RechunkStep, EmbedStep, ClaimStep, GiveUpStep, IsReady;
    EarlierStagesAreNotReady(env, s, w, choice);
    ClaimsAreNotReady(s, w, choice);
    if IsReady(EmbedStep(env, s, w, choice), w) {
      OnlyTheLastEmbedIsReady(env, s, w, choice);
    }
  }

  lemma MovesTo(w: nat)
    ensures forall s: State, pc: Pc | w in s.deliveries :: w in At(s, w, pc).deliveries && At(s, w, pc).deliveries[w].pc == pc
  {
  }

  lemma CasMovesTo(w: nat)
    ensures forall s: State, expected, next, reason, moved: Pc, lost: Pc | w in s.deliveries ::
              var r := Cas(s, w, expected, next, reason, moved, lost);
              w in r.deliveries && (r.deliveries[w].pc == moved || r.deliveries[w].pc == lost)
  {
    hide Transition;
  }

  lemma StoreReadyDelivers(env: Env, s: State, w: nat, choice: Choice)
    requires Inv(env, s) && w in s.deliveries && s.deliveries[w].pc == StoringReady && !choice.Raises?
    ensures var r := EmbedStep(env, s, w, choice);
            Delivered(env, r, r.deliveries[w])
  {
    hide Inv, DeliveryOk, StoreReady, Transient;
    var d := s.deliveries[w];
    HolderFacts(env, s, w);
    var x := d.job.document.parsed.value;
    if Matches(s.tables, d.job.document, d.job.owner, Processing) {
      StoreReadyIs(s.tables, s.now, d.job, d.config);
      var e := s.tables[x];
      assert Marked(e.chunks, d.config.embedding)
             == RowsFor(env.chunk(e.chunks[0].version, e.pages), e.chunks[0].version, Some(d.config.embedding));
    } else {
      StoreReadyMisses(s.tables, s.now, d.job, d.config);
    }
  }

  lemma StillDelivered(env: Env, s: State, r: State, d: Delivery)
    requires Delivered(env, s, d) && TablesAdvance(s.tables, r.tables)
    ensures Delivered(env, r, d)
  {
  }

  lemma StepDelivers(env: Env, s: State, w: nat, choice: Choice)
    requires Inv(env, s) && AllDelivered(env, s) && w in s.deliveries
    ensures AllDelivered(env, StepDelivery(env, s, w, choice))
  {
    hide Inv, Delivered, ParseStep, ChunkStep, RechunkStep, EmbedStep, ClaimStep, GiveUpStep, TablesAdvance;
    var r := StepDelivery(env, s, w, choice);
    StepAdvances(env, s, w, choice);
    KeepsDeliveries(env, s, w, choice);
    forall v | v in r.deliveries
      ensures Delivered(env, r, r.deliveries[v])
    {
      if v != w {
        StillDelivered(env, s, r, s.deliveries[v]);
      } else if s.deliveries[w].pc == Done(Returned(BecameReady)) {
        StillDelivered(env, s, r, s.deliveries[w]);
      } else if r.deliveries[w].pc == Done(Returned(BecameReady)) {
        OnlyStoreReady(env, s, w, choice);
        StoreReadyDelivers(env, s, w, choice);
      } else {
        NotDone(env, r, r.deliveries[w]);
      }
    }
  }

  lemma NotDone(env: Env, s: State, d: Delivery)
    requires d.pc != Done(Returned(BecameReady))
    ensures Delivered(env, s, d)
  {
  }

  lemma ApplyDelivers(env: Env, s: State, e: Event)
    requires Inv(env, s) && AllDelivered(env, s)
    ensures AllDelivered(env, Apply(env, s, e))
  {
    hide Inv, StepDelivery, TablesAdvance, PartialEffect, FailStale, SoftDelete, UniqueContent, Delivered, HeldStage;
    var r := Apply(env, s, e);
    ApplyAdvances(env, s, e);
    if e.Step? && e.delivery in s.deliveries {
      StepDelivers(env, s, e.delivery, e.choice);
    } else {
      forall v | v in r.deliveries
        ensures Delivered(env, r, r.deliveries[v])
      {
        if r.deliveries[v].pc == Done(Returned(BecameReady)) {
          StillDelivered(env, s, r, s.deliveries[v]);
        } else {
          NotDone(env, r, r.deliveries[v]);
        }
      }
    }
  }

  lemma {:induction false} RunDelivers(env: Env, events: seq<Event>)
    requires GoodEnv(env) && AlikeJobs(env, events)
    ensures AllDelivered(env, Run(env, Empty, events))
    decreases |events|
  {
    if events != [] {
      var front := events[..|events| - 1];
      RunDelivers(env, front);
      ReachedInv(env, front, Run(env, Empty, front));
      hide Inv, Apply;
      ApplyDelivers(env, Run(env, Empty, front), events[|events| - 1]);
    }
  }

  /**
   Whatever happened before, a delivery that reports `ready` leaves, for good, the pages, chunks and
   points that its document's bytes and its own configuration determine, and nothing else.
   */
  lemma SuccessDeterminesTheData(env: Env, events: seq<Event>, s: State, w: nat)
    requires Reached(env, events, s) && w in s.deliveries && s.deliveries[w].pc == Done(Returned(BecameReady))
    ensures var d := s.deliveries[w];
            && d.job.document.parsed.Some? && d.job.document.parsed.value in s.tables
            && var x := d.job.document.parsed.value;
            && var e := s.tables[x];
            && e.row.status == Ready && d.job.owner == Canonical(e.row.owner)
            && e.pages == env.extract(d.job.contentHash)
            && e.chunks == FinalChunks(env, d.job.contentHash, d.config)
            && ExactlyIndexed(env, x, e.row.owner, e.chunks, d.config.embedding, s.points)
  {
    RunDelivers(env, events);
    assert Delivered(env, s, s.deliveries[w]);
    ReadyIsExactlyIndexed(env, events, s, s.deliveries[w].job.document.parsed.value);
  }

  /** Two runs, however different, that end with the same delivery succeeding end with the same data. */
  lemma RunsConverge(env: Env, one: seq<Event>, two: seq<Event>, s: State, r: State, v: nat, w: nat)
    requires Reached(env, one, s) && Reached(env, two, r)
    requires v in s.deliveries && s.deliveries[v].pc == Done(Returned(BecameReady))
    requires w in r.deliveries && r.deliveries[w].pc == Done(Returned(BecameReady))
    requires s.deliveries[v].job == r.deliveries[w].job && s.deliveries[v].config == r.deliveries[w].config
    ensures s.deliveries[v].job.document.parsed.Some?
    ensures var x := s.deliveries[v].job.document.parsed.value;
            && x in s.tables && x in r.tables
            && s.tables[x].row.status == r.tables[x].row.status == Ready
            && s.tables[x].pages == r.tables[x].pages && s.tables[x].chunks == r.tables[x].chunks
            && s.tables[x].row.chunkCount == r.tables[x].row.chunkCount
            && s.tables[x].row.owner == r.tables[x].row.owner
            && (forall id: ChunkId | id.document == x ::
                  && (id in s.points <==> id in r.points)
                  && (id in s.points ==> s.points[id] == r.points[id]))
  {
    SuccessDeterminesTheData(env, one, s, v);
    SuccessDeterminesTheData(env, two, r, w);
    NoOldGeneration(env, one, s);
    NoOldGeneration(env, two, r);
    hide Reached;
  }
}
