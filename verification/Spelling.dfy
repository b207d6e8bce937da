/**
 How jobs must spell their document's id, exactly.

 `ingest` compares a job with its row field by field, but the document's id it only parses. The text is
 then written into every payload, and the vector store's delete matches that text. The upload and the
 recovery sweep both write `str(uuid)`; a job from anywhere else need not.
 */
module Spelling {
  import opened Identifiers
  import opened Text
  import opened Tables
  import opened VectorIndex
  import opened Pipeline
  import opened PipelineInvariant
  import opened PipelineTheorems
  import opened TwoSpellings

  // --- what a run reads ---------------------------------------------------------------

  function Respelled(env: Env, spelling: Uuid -> nat): Env {
    env.(spelling := spelling)
  }

  lemma {:induction false} RecordsIgnoreSpelling(env: Env, f: Uuid -> nat, job: Job, config: Config, x: Uuid, rows: seq<ChunkRow>)
    ensures RecordsFor(Respelled(env, f), job, config, x, rows) == RecordsFor(env, job, config, x, rows)
    decreases |rows|
  {
    if rows != [] {
      RecordsIgnoreSpelling(env, f, job, config, x, rows[..|rows| - 1]);
    }
  }

  lemma StagesIgnoreSpelling(env: Env, f: Uuid -> nat, s: State, w: nat, choice: Choice)
    requires w in s.deliveries
    ensures ParseStep(Respelled(env, f), s, w, choice) == ParseStep(env, s, w, choice)
    ensures ChunkStep(Respelled(env, f), s, w, choice) == ChunkStep(env, s, w, choice)
    ensures RechunkStep(Respelled(env, f), s, w, choice) == RechunkStep(env, s, w, choice)
  {
    hide At, Settle, Transient, Unclassified, PartialEffect, WithoutDocument, ListPages, HasText;
  }

  lemma EmbeddingIgnoresSpelling(env: Env, f: Uuid -> nat, s: State, w: nat, choice: Choice)
    requires w in s.deliveries
    ensures EmbedStep(Respelled(env, f), s, w, choice) == EmbedStep(env, s, w, choice)
  {
    hide At, Settle, Transient, Unclassified, PartialEffect, Provenance, ListChunks, RecordsFor, Respelled;
    var d := s.deliveries[w];
    if d.pc.EmbeddingText? && d.job.document.parsed.Some? {
      RecordsIgnoreSpelling(env, f, d.job, d.config, d.job.document.parsed.value, d.pc.rows);
    }
  }

  /** No step reads how ids are spelt. */
  lemma {:induction false} RunIgnoresSpelling(env: Env, f: Uuid -> nat, s: State, events: seq<Event>)
    ensures Run(Respelled(env, f), s, events) == Run(env, s, events)
    decreases |events|
  {
    hide ParseStep, ChunkStep, RechunkStep, EmbedStep, ClaimStep, GiveUpStep, Respelled, CancelDelivery, KillDelivery;
    if events != [] {
      var front, e := events[..|events| - 1], events[|events| - 1];
      RunIgnoresSpelling(env, f, s, front);
      var before := Run(env, s, front);
      if e.Step? && e.delivery in before.deliveries {
        StagesIgnoreSpelling(env, f, before, e.delivery, e.choice);
        EmbeddingIgnoresSpelling(env, f, before, e.delivery, e.choice);
      }
    }
  }

  // --- jobs that spell alike ------------------------------------------------------------

  /** Any two jobs of one document write its id in one text. */
  predicate SpeltAlike(events: seq<Event>) {
    forall i, j | 0 <= i < |events| && 0 <= j < |events| && events[i].Deliver? && events[j].Deliver?
                  && events[i].job.document.parsed.Some?
                  && events[i].job.document.parsed == events[j].job.document.parsed ::
      events[i].job.document == events[j].job.document
  }

  predicate DeliversAt(events: seq<Event>, i: nat, x: Uuid) {
    i < |events| && events[i].Deliver? && events[i].job.document.parsed == Some(x)
  }

  /** The text its jobs have for a document's id, if it has any. */
  ghost function SpellingIn(events: seq<Event>, x: Uuid): nat {
    if i: nat :| DeliversAt(events, i, x) then events[i].job.document.spelling else 0
  }

  /**
   No point is left of a generation its document no longer has, every point's payload names the document of
   its id, and every chunk of a ready document has its point.
   */
  ghost predicate ExactIndex(s: State) {
    && (forall id | id in s.points :: !Stray(s, id) && id.document in s.tables
                                      && s.points[id].payload.document.parsed == Some(id.document))
    && (forall x, i: nat | x in s.tables && s.tables[x].row.status == Ready && i < |s.tables[x].chunks| ::
          IdOf(x, s.tables[x].chunks[i]) in s.points)
  }

  lemma SpeltAlikeIsReached(env: Env, events: seq<Event>) returns (other: Env)
    requires GoodEnv(env) && SpeltAlike(events)
    ensures other == Respelled(env, other.spelling)
    ensures Reached(other, events, Run(env, Empty, events))
  {
    hide Run;
    other := Respelled(env, x => SpellingIn(events, x));
    RunIgnoresSpelling(env, other.spelling, Empty, events);
    forall k | 0 <= k < |events| && events[k].Deliver?
      ensures SpellsAlike(other, events[k].job)
    {
      if events[k].job.document.parsed.Some? {
        var x := events[k].job.document.parsed.value;
        assert DeliversAt(events, k, x);
        var i: nat :| DeliversAt(events, i, x) && SpellingIn(events, x) == events[i].job.document.spelling;
        assert events[i].job.document == events[k].job.document;
      }
    }
  }

  /** Jobs that spell each document's id alike, in whatever text, keep the index exact in every run. */
  lemma {:induction false} AlikeRunsStayExact(env: Env, events: seq<Event>)
    requires GoodEnv(env) && SpeltAlike(events)
    ensures ExactIndex(Run(env, Empty, events))
  {
    hide Run, Reached, ExactlyIndexed;
    var other := SpeltAlikeIsReached(env, events);
    var s := Run(env, Empty, events);
    NoOldGeneration(other, events, s);
    forall x, i: nat | x in s.tables && s.tables[x].row.status == Ready && i < |s.tables[x].chunks|
      ensures IdOf(x, s.tables[x].chunks[i]) in s.points
    {
      ReadyIsExactlyIndexed(other, events, s, x);
      HasPoint(other, x, s.tables[x].row.owner, s.tables[x].chunks, s.tables[x].chunks[0].embedding.value, s.points, i);
    }
  }

  lemma HasPoint(env: Env, x: Uuid, owner: Uuid, rows: seq<ChunkRow>, embedding: Embedding, points: Points, i: nat)
    requires ExactlyIndexed(env, x, owner, rows, embedding, points) && i < |rows|
    ensures IdOf(x, rows[i]) in points
  {
  }

  // --- the exact condition -----------------------------------------------------------------

  /** Every job's text for its document's id is one `allowed` has. */
  ghost predicate Written(events: seq<Event>, allowed: (Uuid, nat) -> bool) {
    forall i | 0 <= i < |events| && events[i].Deliver? && events[i].job.document.parsed.Some? ::
      allowed(events[i].job.document.parsed.value, events[i].job.document.spelling)
  }

  ghost predicate OneTextEach(allowed: (Uuid, nat) -> bool) {
    forall x, a, b | allowed(x, a) && allowed(x, b) :: a == b
  }

  ghost predicate AlwaysExact(allowed: (Uuid, nat) -> bool) {
    forall env, events | GoodEnv(env) && Written(events, allowed) :: ExactIndex(Run(env, Empty, events))
  }

  /** Nothing stray is ever left at a document that is live and ready. */
  ghost predicate ReadyAlwaysExact(allowed: (Uuid, nat) -> bool) {
    forall env, events, id: ChunkId | GoodEnv(env) && Written(events, allowed) ::
      var s := Run(env, Empty, events);
      Stray(s, id) ==> s.tables[id.document].row.status != Ready || s.tables[id.document].row.deleted
  }

  /**
   The exact condition. Let every producer of jobs keep to the texts `allowed`. Then all runs keep the index
   exact, and all runs keep live ready documents exact, if and only if no document has two texts.
   */
  lemma ExactIffOneText(allowed: (Uuid, nat) -> bool)
    ensures AlwaysExact(allowed) <==> OneTextEach(allowed)
    ensures ReadyAlwaysExact(allowed) <==> OneTextEach(allowed)
  {
    hide Run, ExactIndex, GoodEnv, Stray;
    if OneTextEach(allowed) {
      forall env, events | GoodEnv(env) && Written(events, allowed)
        ensures ExactIndex(Run(env, Empty, events))
        ensures forall id: ChunkId :: !Stray(Run(env, Empty, events), id)
      {
        OneTextIsAlike(events, allowed);
        AlikeRunsStayExact(env, events);
        ExactHasNoStrays(Run(env, Empty, events));
      }
    } else {
      var x, a, b :| allowed(x, a) && allowed(x, b) && a != b;
      var events := OldGenerationSurvives(x, a, b);
      TwoTextsWritten(events, x, a, b, allowed);
      StrayIsNotExact(Run(TheEnv, Empty, events), OldId(x));
    }
  }

  lemma OneTextIsAlike(events: seq<Event>, allowed: (Uuid, nat) -> bool)
    requires OneTextEach(allowed) && Written(events, allowed)
    ensures SpeltAlike(events)
  {
  }

  lemma ExactHasNoStrays(s: State)
    requires ExactIndex(s)
    ensures forall id: ChunkId :: !Stray(s, id)
  {
  }

  lemma StrayIsNotExact(s: State, id: ChunkId)
    requires Stray(s, id)
    ensures !ExactIndex(s)
  {
  }

  lemma TwoTextsWritten(events: seq<Event>, x: Uuid, a: nat, b: nat, allowed: (Uuid, nat) -> bool)
    requires OnlyTexts(events, x, a, b) && allowed(x, a) && allowed(x, b)
    ensures Written(events, allowed)
  {
  }
}
