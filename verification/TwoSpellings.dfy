/**
 A run in which two jobs of one document write its id in two texts.

 The first delivery writes its vectors and fails to commit `ready`. The second has another version, so it
 deletes the document's vectors and makes the chunks again. The delete matches the second text, and the
 stored payload has the first.
 */
module TwoSpellings {
  import opened Identifiers
  import opened Text
  import opened Tables
  import opened VectorIndex
  import opened Pipeline
  import opened PipelineInvariant
  import opened PipelineSteps

  const ThePages: seq<Page> := [Page(1, [TextBlock("a", 1.0)])]
  const TheChunk: Text.Chunk := Text.Chunk(0, "a", None, 1, 1, 1)
  const TheEnv: Env := Env(_ => ThePages, (_, _) => [TheChunk], (_, _) => [1.0], _ => 0)
  const TheKey: StorageKey := Key(1, 5)
  const TheRow: Document :=
    Document(1, Pending, None, 0, Some(TheKey), Some(Sha256(5)), Some(Pdf), Some(1), 0, false)
  const OldVersion: Version := Version("section-aware/v1", "regex-word/v1")
  const NewVersion: Version := Version("section-aware/v1", "word-piece/v1")
  const Model: Embedding := Embedding.Embedding("model", 1)

  /** A job for document `x`, whose id it writes this way. */
  function TheJob(x: Uuid, spelling: nat): Job {
    Job(RawId(Some(x), spelling), Canonical(1), TheKey, Sha256(5), Pdf)
  }

  const OldConfig: Config := Config(OldVersion, Model, 10)
  const NewConfig: Config := Config(NewVersion, Model, 10)
  const OldRows: seq<ChunkRow> := [ChunkRow(TheChunk, OldVersion, None)]
  const NewRows: seq<ChunkRow> := [ChunkRow(TheChunk, NewVersion, None)]

  function OldId(x: Uuid): ChunkId {
    ChunkId(x, 0, OldVersion)
  }

  /** The first delivery writes the id as `a` and has the old version; the second writes it as `b` and has the new. */
  function First(x: Uuid, a: nat, pc: Pc): Delivery {
    Delivery(TheJob(x, a), OldConfig, false, 0, Some(1), pc)
  }

  function Second(x: Uuid, b: nat, pc: Pc): Delivery {
    Delivery(TheJob(x, b), NewConfig, false, 0, Some(1), pc)
  }

  function OldPoints(x: Uuid, a: nat): Points {
    map[OldId(x) := PointFor(TheEnv, TheJob(x, a), OldConfig, OldId(x), OldRows[0])]
  }

  function During(x: Uuid, status: Status, pages: seq<Page>, rows: seq<ChunkRow>, points: Points, d: Delivery): State {
    State(map[x := Entry(TheRow.(status := status, chunkCount := |rows|), pages, rows)], points, 0, map[0 := d])
  }

  /** Every job delivered is for `x`, and writes its id as `a` or as `b`. */
  predicate OnlyTexts(events: seq<Event>, x: Uuid, a: nat, b: nat) {
    forall i | 0 <= i < |events| && events[i].Deliver? :: events[i].job == TheJob(x, a) || events[i].job == TheJob(x, b)
  }

  ghost predicate Reachable(x: Uuid, a: nat, b: nat, s: State) {
    exists events :: OnlyTexts(events, x, a, b) && Run(TheEnv, Empty, events) == s
  }

  lemma Happens(x: Uuid, a: nat, b: nat, s: State, e: Event)
    requires Reachable(x, a, b, s) && OnlyTexts([e], x, a, b)
    ensures Reachable(x, a, b, Apply(TheEnv, s, e))
  {
    hide Apply;
    var events :| OnlyTexts(events, x, a, b) && Run(TheEnv, Empty, events) == s;
    var more := events + [e];
    assert more[..|more| - 1] == events && more[|more| - 1] == e;
    assert forall i | 0 <= i < |more| && more[i].Deliver? :: if i < |events| then more[i] == events[i] else more[i] == [e][0];
    assert OnlyTexts(more, x, a, b) && Run(TheEnv, Empty, more) == Apply(TheEnv, s, e);
  }

  /** One step of the only delivery there is. */
  lemma Steps(x: Uuid, a: nat, b: nat, s: State, w: nat, choice: Choice, r: State)
    requires Reachable(x, a, b, s) && w in s.deliveries && StepDelivery(TheEnv, s, w, choice) == r
    ensures Reachable(x, a, b, r)
  {
    Happens(x, a, b, s, Step(w, choice));
  }

  lemma FirstArrives(x: Uuid, a: nat, b: nat)
    ensures Reachable(x, a, b, During(x, Pending, [], [], map[], First(x, a, Begin).(pageCount := None)))
  {
    var uploaded := State(map[x := Entry(TheRow, [], [])], map[], 0, map[]);
    assert Reachable(x, a, b, Empty) by {
      assert OnlyTexts([], x, a, b) && Run(TheEnv, Empty, []) == Empty;
    }
    Happens(x, a, b, Empty, Upload(x, TheRow));
    assert Apply(TheEnv, Empty, Upload(x, TheRow)) == uploaded;
    Happens(x, a, b, uploaded, Deliver(0, TheJob(x, a), OldConfig, false));
    assert Apply(TheEnv, uploaded, Deliver(0, TheJob(x, a), OldConfig, false))
           == During(x, Pending, [], [], map[], First(x, a, Begin).(pageCount := None));
  }

  lemma FirstFetches(x: Uuid, a: nat, b: nat)
    requires Reachable(x, a, b, During(x, Pending, [], [], map[], First(x, a, Begin).(pageCount := None)))
    ensures Reachable(x, a, b, During(x, Processing, [], [], map[], First(x, a, Extracting)))
  {
    Steps(x, a, b, During(x, Pending, [], [], map[], First(x, a, Begin).(pageCount := None)), 0, Succeeds,
          During(x, Pending, [], [], map[], First(x, a, Claiming(ParseStage))));
    Steps(x, a, b, During(x, Pending, [], [], map[], First(x, a, Claiming(ParseStage))), 0, Succeeds,
          During(x, Processing, [], [], map[], First(x, a, Fetching)));
    Steps(x, a, b, During(x, Processing, [], [], map[], First(x, a, Fetching)), 0, Succeeds,
          During(x, Processing, [], [], map[], First(x, a, Extracting)));
  }

  lemma FirstParses(x: Uuid, a: nat, b: nat)
    requires Reachable(x, a, b, During(x, Processing, [], [], map[], First(x, a, Extracting)))
    ensures Reachable(x, a, b, During(x, Parsed, ThePages, [], map[], First(x, a, Claiming(ChunkStage))))
  {
    hide ChunkStep, RechunkStep, EmbedStep, ClaimStep, GiveUpStep;
    assert ThePages[0].blocks != [];
    var storing := During(x, Processing, [], [], map[], First(x, a, StoringParsed(ThePages)));
    StoreParsedIs(storing.tables, 0, TheJob(x, a), ThePages);
    Steps(x, a, b, During(x, Processing, [], [], map[], First(x, a, Extracting)), 0, Succeeds, storing);
    Steps(x, a, b, storing, 0, Succeeds, During(x, Parsed, ThePages, [], map[], First(x, a, Claiming(ChunkStage))));
  }

  lemma FirstMakesChunks(x: Uuid, a: nat, b: nat)
    requires Reachable(x, a, b, During(x, Parsed, ThePages, [], map[], First(x, a, Claiming(ChunkStage))))
    ensures Reachable(x, a, b, During(x, Processing, ThePages, [], map[], First(x, a, StoringChunks([TheChunk]))))
  {
    hide ParseStep, RechunkStep, EmbedStep, GiveUpStep;
    Steps(x, a, b, During(x, Parsed, ThePages, [], map[], First(x, a, Claiming(ChunkStage))), 0, Succeeds,
          During(x, Processing, ThePages, [], map[], First(x, a, ReadingPages)));
    Steps(x, a, b, During(x, Processing, ThePages, [], map[], First(x, a, ReadingPages)), 0, Succeeds,
          During(x, Processing, ThePages, [], map[], First(x, a, MakingChunks(ThePages))));
    Steps(x, a, b, During(x, Processing, ThePages, [], map[], First(x, a, MakingChunks(ThePages))), 0, Succeeds,
          During(x, Processing, ThePages, [], map[], First(x, a, StoringChunks([TheChunk]))));
  }

  lemma FirstStoresChunks(x: Uuid, a: nat, b: nat)
    requires Reachable(x, a, b, During(x, Processing, ThePages, [], map[], First(x, a, StoringChunks([TheChunk]))))
    ensures Reachable(x, a, b, During(x, Chunked, ThePages, OldRows, map[], First(x, a, Claiming(EmbedStage))))
  {
    hide ParseStep, RechunkStep, EmbedStep, ClaimStep, GiveUpStep;
    var storing := During(x, Processing, ThePages, [], map[], First(x, a, StoringChunks([TheChunk])));
    StoreChunksIs(storing.tables, 0, TheJob(x, a), OldConfig, [TheChunk]);
    assert RowsFor([TheChunk], OldVersion, None) == OldRows;
    Steps(x, a, b, storing, 0, Succeeds, During(x, Chunked, ThePages, OldRows, map[], First(x, a, Claiming(EmbedStage))));
  }

  lemma OneVersion(s: State, job: Job, version: Version)
    requires Owned(s.tables, job.document, job.owner)
    requires |s.tables[job.document.parsed.value].chunks| == 1
    requires s.tables[job.document.parsed.value].chunks[0].version == version
    ensures Provenance(s.tables, job.document, job.owner) == {version}
  {
    assert s.tables[job.document.parsed.value].chunks[0].version in Provenance(s.tables, job.document, job.owner);
  }

  lemma FirstClaimsEmbedding(x: Uuid, a: nat, b: nat)
    requires Reachable(x, a, b, During(x, Chunked, ThePages, OldRows, map[], First(x, a, Claiming(EmbedStage))))
    ensures Reachable(x, a, b, During(x, Processing, ThePages, OldRows, map[], First(x, a, CheckingProvenance)))
  {
    hide ParseStep, ChunkStep, RechunkStep, EmbedStep, GiveUpStep;
    Steps(x, a, b, During(x, Chunked, ThePages, OldRows, map[], First(x, a, Claiming(EmbedStage))), 0, Succeeds,
          During(x, Processing, ThePages, OldRows, map[], First(x, a, CheckingProvenance)));
  }

  lemma FirstLists(x: Uuid, a: nat, b: nat)
    requires Reachable(x, a, b, During(x, Processing, ThePages, OldRows, map[], First(x, a, CheckingProvenance)))
    ensures Reachable(x, a, b, During(x, Processing, ThePages, OldRows, map[], First(x, a, EmbeddingText(OldRows))))
  {
    hide ParseStep, ChunkStep, RechunkStep, ClaimStep, GiveUpStep, Provenance;
    var checking := During(x, Processing, ThePages, OldRows, map[], First(x, a, CheckingProvenance));
    OneVersion(checking, TheJob(x, a), OldVersion);
    Steps(x, a, b, checking, 0, Succeeds, During(x, Processing, ThePages, OldRows, map[], First(x, a, ListingChunks)));
    Steps(x, a, b, During(x, Processing, ThePages, OldRows, map[], First(x, a, ListingChunks)), 0, Succeeds,
          During(x, Processing, ThePages, OldRows, map[], First(x, a, EmbeddingText(OldRows))));
  }

  lemma FirstEmbeds(x: Uuid, a: nat, b: nat)
    requires Reachable(x, a, b, During(x, Processing, ThePages, OldRows, map[], First(x, a, EmbeddingText(OldRows))))
    ensures Reachable(x, a, b, During(x, Processing, ThePages, OldRows, map[], First(x, a, Upserting(OldPoints(x, a)))))
  {
    assert RecordsFor(TheEnv, TheJob(x, a), OldConfig, x, OldRows) == OldPoints(x, a) by {
      assert OldRows[..|OldRows| - 1] == [];
    }
    Steps(x, a, b, During(x, Processing, ThePages, OldRows, map[], First(x, a, EmbeddingText(OldRows))), 0, Succeeds,
          During(x, Processing, ThePages, OldRows, map[], First(x, a, Upserting(OldPoints(x, a)))));
  }

  lemma FirstUpserts(x: Uuid, a: nat, b: nat)
    requires Reachable(x, a, b, During(x, Processing, ThePages, OldRows, map[], First(x, a, Upserting(OldPoints(x, a)))))
    ensures Reachable(x, a, b, During(x, Processing, ThePages, OldRows, OldPoints(x, a), First(x, a, StoringReady)))
  {
    assert map[] + OldPoints(x, a) == OldPoints(x, a);
    Steps(x, a, b, During(x, Processing, ThePages, OldRows, map[], First(x, a, Upserting(OldPoints(x, a)))), 0, Succeeds,
          During(x, Processing, ThePages, OldRows, OldPoints(x, a), First(x, a, StoringReady)));
  }

  /** The commit of `ready` fails. */
  lemma FirstFailsToCommit(x: Uuid, a: nat, b: nat)
    requires Reachable(x, a, b, During(x, Processing, ThePages, OldRows, OldPoints(x, a), First(x, a, StoringReady)))
    ensures Reachable(x, a, b, During(x, Processing, ThePages, OldRows, OldPoints(x, a), First(x, a, Releasing(EmbedStage, ProcessingFailure))))
  {
    hide PointFor, OldPoints, StoreReady, ParseStep, ChunkStep, RechunkStep, ClaimStep, GiveUpStep;
    Steps(x, a, b, During(x, Processing, ThePages, OldRows, OldPoints(x, a), First(x, a, StoringReady)), 0, Raises({}),
          During(x, Processing, ThePages, OldRows, OldPoints(x, a), First(x, a, Releasing(EmbedStage, ProcessingFailure))));
  }

  lemma FirstReleases(x: Uuid, a: nat, b: nat)
    requires Reachable(x, a, b, During(x, Processing, ThePages, OldRows, OldPoints(x, a), First(x, a, Releasing(EmbedStage, ProcessingFailure))))
    ensures Reachable(x, a, b, During(x, Chunked, ThePages, OldRows, OldPoints(x, a),
                             First(x, a, Done(RaisedTransient(EmbedStage, ProcessingFailure)))))
  {
    hide PointFor, OldPoints, ParseStep, ChunkStep, RechunkStep, EmbedStep, GiveUpStep;
    Steps(x, a, b, During(x, Processing, ThePages, OldRows, OldPoints(x, a), First(x, a, Releasing(EmbedStage, ProcessingFailure))), 0, Succeeds,
          During(x, Chunked, ThePages, OldRows, OldPoints(x, a), First(x, a, Done(RaisedTransient(EmbedStage, ProcessingFailure)))));
  }

  /** With a second delivery, after the first is over. */
  function Later(x: Uuid, a: nat, b: nat, status: Status, rows: seq<ChunkRow>, points: Points, pc: Pc): State {
    var s := During(x, status, ThePages, rows, points, First(x, a, Done(RaisedTransient(EmbedStage, ProcessingFailure))));
    s.(deliveries := s.deliveries[1 := Second(x, b, pc)])
  }

  lemma SecondClaims(x: Uuid, a: nat, b: nat)
    requires Reachable(x, a, b, Later(x, a, b, Chunked, OldRows, OldPoints(x, a), Claiming(EmbedStage)))
    ensures Reachable(x, a, b, Later(x, a, b, Processing, OldRows, OldPoints(x, a), CheckingProvenance))
  {
    hide OldPoints, ParseStep, ChunkStep, RechunkStep, EmbedStep, GiveUpStep;
    Steps(x, a, b, Later(x, a, b, Chunked, OldRows, OldPoints(x, a), Claiming(EmbedStage)), 1, Succeeds,
          Later(x, a, b, Processing, OldRows, OldPoints(x, a), CheckingProvenance));
  }

  lemma SecondChecks(x: Uuid, a: nat, b: nat)
    requires Reachable(x, a, b, Later(x, a, b, Processing, OldRows, OldPoints(x, a), CheckingProvenance))
    ensures Reachable(x, a, b, Later(x, a, b, Processing, OldRows, OldPoints(x, a), ReadingPagesAgain))
  {
    hide OldPoints, ParseStep, ChunkStep, RechunkStep, ClaimStep, GiveUpStep, Provenance;
    var checking := Later(x, a, b, Processing, OldRows, OldPoints(x, a), CheckingProvenance);
    OneVersion(checking, TheJob(x, b), OldVersion);
    OtherVersion();
    Steps(x, a, b, checking, 1, Succeeds, Later(x, a, b, Processing, OldRows, OldPoints(x, a), ReadingPagesAgain));
  }

  lemma OtherVersion()
    ensures NewVersion != OldVersion
  {
    assert NewVersion.tokenizer[0] != OldVersion.tokenizer[0];
  }

  lemma SecondRemakes(x: Uuid, a: nat, b: nat)
    requires Reachable(x, a, b, Later(x, a, b, Processing, OldRows, OldPoints(x, a), ReadingPagesAgain))
    ensures Reachable(x, a, b, Later(x, a, b, Processing, OldRows, OldPoints(x, a), DeletingVectors([TheChunk])))
  {
    hide OldPoints, ParseStep, ChunkStep, EmbedStep, ClaimStep, GiveUpStep;
    Steps(x, a, b, Later(x, a, b, Processing, OldRows, OldPoints(x, a), ReadingPagesAgain), 1, Succeeds,
          Later(x, a, b, Processing, OldRows, OldPoints(x, a), RemakingChunks(ThePages)));
    Steps(x, a, b, Later(x, a, b, Processing, OldRows, OldPoints(x, a), RemakingChunks(ThePages)), 1, Succeeds,
          Later(x, a, b, Processing, OldRows, OldPoints(x, a), DeletingVectors([TheChunk])));
  }

  /** The delete matches the text of its own job, and the stored payload has another: nothing goes. */
  lemma SecondDeletes(x: Uuid, a: nat, b: nat)
    requires a != b
    requires Reachable(x, a, b, Later(x, a, b, Processing, OldRows, OldPoints(x, a), DeletingVectors([TheChunk])))
    ensures Reachable(x, a, b, Later(x, a, b, Processing, OldRows, OldPoints(x, a), ReplacingChunks([TheChunk])))
  {
    assert WithoutDocument(OldPoints(x, a), TheJob(x, b).document, TheJob(x, b).owner) == OldPoints(x, a);
    Steps(x, a, b, Later(x, a, b, Processing, OldRows, OldPoints(x, a), DeletingVectors([TheChunk])), 1, Succeeds,
          Later(x, a, b, Processing, OldRows, OldPoints(x, a), ReplacingChunks([TheChunk])));
  }

  lemma SecondReplaces(x: Uuid, a: nat, b: nat)
    requires Reachable(x, a, b, Later(x, a, b, Processing, OldRows, OldPoints(x, a), ReplacingChunks([TheChunk])))
    ensures Reachable(x, a, b, Later(x, a, b, Processing, NewRows, OldPoints(x, a), ListingChunks))
  {
    hide OldPoints, ParseStep, ChunkStep, EmbedStep, ClaimStep, GiveUpStep;
    var replacing := Later(x, a, b, Processing, OldRows, OldPoints(x, a), ReplacingChunks([TheChunk]));
    ReplaceChunksIs(replacing.tables, 0, TheJob(x, b), NewConfig, [TheChunk]);
    assert RowsFor([TheChunk], NewVersion, None) == NewRows;
    Steps(x, a, b, replacing, 1, Succeeds, Later(x, a, b, Processing, NewRows, OldPoints(x, a), ListingChunks));
  }

  lemma SecondArrives(x: Uuid, a: nat, b: nat)
    requires Reachable(x, a, b, During(x, Chunked, ThePages, OldRows, OldPoints(x, a),
                              First(x, a, Done(RaisedTransient(EmbedStage, ProcessingFailure)))))
    ensures Reachable(x, a, b, Later(x, a, b, Chunked, OldRows, OldPoints(x, a), Claiming(EmbedStage)))
  {
    var s := During(x, Chunked, ThePages, OldRows, OldPoints(x, a), First(x, a, Done(RaisedTransient(EmbedStage, ProcessingFailure))));
    Happens(x, a, b, s, Deliver(1, TheJob(x, b), NewConfig, false));
    var begun := s.(deliveries := s.deliveries[1 := Second(x, b, Begin).(pageCount := None)]);
    assert Apply(TheEnv, s, Deliver(1, TheJob(x, b), NewConfig, false)) == begun;
    Steps(x, a, b, begun, 1, Succeeds, Later(x, a, b, Chunked, OldRows, OldPoints(x, a), Claiming(EmbedStage)));
  }


  // --- and on to ready ---------------------------------------------------------------------

  const ReadyRows: seq<ChunkRow> := [ChunkRow(TheChunk, NewVersion, Some(Model))]

  function NewId(x: Uuid): ChunkId {
    ChunkId(x, 0, NewVersion)
  }

  function NewPoints(x: Uuid, b: nat): Points {
    map[NewId(x) := PointFor(TheEnv, TheJob(x, b), NewConfig, NewId(x), NewRows[0])]
  }

  lemma SecondEmbeds(x: Uuid, a: nat, b: nat)
    requires Reachable(x, a, b, Later(x, a, b, Processing, NewRows, OldPoints(x, a), ListingChunks))
    ensures Reachable(x, a, b, Later(x, a, b, Processing, NewRows, OldPoints(x, a), Upserting(NewPoints(x, b))))
  {
    hide OldPoints, ParseStep, ChunkStep, RechunkStep, ClaimStep, GiveUpStep;
    assert RecordsFor(TheEnv, TheJob(x, b), NewConfig, x, NewRows) == NewPoints(x, b) by {
      assert NewRows[..|NewRows| - 1] == [];
    }
    Steps(x, a, b, Later(x, a, b, Processing, NewRows, OldPoints(x, a), ListingChunks), 1, Succeeds,
          Later(x, a, b, Processing, NewRows, OldPoints(x, a), EmbeddingText(NewRows)));
    Steps(x, a, b, Later(x, a, b, Processing, NewRows, OldPoints(x, a), EmbeddingText(NewRows)), 1, Succeeds,
          Later(x, a, b, Processing, NewRows, OldPoints(x, a), Upserting(NewPoints(x, b))));
  }

  lemma SecondUpserts(x: Uuid, a: nat, b: nat)
    requires Reachable(x, a, b, Later(x, a, b, Processing, NewRows, OldPoints(x, a), Upserting(NewPoints(x, b))))
    ensures Reachable(x, a, b, Later(x, a, b, Processing, NewRows, OldPoints(x, a) + NewPoints(x, b), StoringReady))
  {
    hide OldPoints, NewPoints, ParseStep, ChunkStep, RechunkStep, ClaimStep, GiveUpStep;
    Steps(x, a, b, Later(x, a, b, Processing, NewRows, OldPoints(x, a), Upserting(NewPoints(x, b))), 1, Succeeds,
          Later(x, a, b, Processing, NewRows, OldPoints(x, a) + NewPoints(x, b), StoringReady));
  }

  lemma SecondCommits(x: Uuid, a: nat, b: nat)
    requires Reachable(x, a, b, Later(x, a, b, Processing, NewRows, OldPoints(x, a) + NewPoints(x, b), StoringReady))
    ensures Reachable(x, a, b, Later(x, a, b, Ready, ReadyRows, OldPoints(x, a) + NewPoints(x, b),
                                     Done(Returned(BecameReady))))
  {
    hide OldPoints, NewPoints, ParseStep, ChunkStep, RechunkStep, ClaimStep, GiveUpStep;
    var storing := Later(x, a, b, Processing, NewRows, OldPoints(x, a) + NewPoints(x, b), StoringReady);
    StoreReadyIs(storing.tables, 0, TheJob(x, b), NewConfig);
    assert Marked(NewRows, Model) == ReadyRows;
    Steps(x, a, b, storing, 1, Succeeds,
          Later(x, a, b, Ready, ReadyRows, OldPoints(x, a) + NewPoints(x, b), Done(Returned(BecameReady))));
  }

  /** The store holds a point that is no chunk's of its document. */
  predicate Stray(s: State, id: ChunkId) {
    && id in s.points && id.document in s.tables
    && forall i | 0 <= i < |s.tables[id.document].chunks| :: IdOf(id.document, s.tables[id.document].chunks[i]) != id
  }

  /**
   For any document and any two texts of its id: a run whose jobs write the one or the other, and which ends
   with the document `ready`, live, and a point of a generation it no longer has.
   */
  lemma OldGenerationSurvives(x: Uuid, a: nat, b: nat) returns (events: seq<Event>)
    requires a != b
    ensures GoodEnv(TheEnv) && OnlyTexts(events, x, a, b)
    ensures var s := Run(TheEnv, Empty, events);
            && Stray(s, OldId(x))
            && s.tables[x].row.status == Ready && !s.tables[x].row.deleted
  {
    hide Run, StepDelivery, Reachable;
    FirstArrives(x, a, b);
    FirstFetches(x, a, b);
    FirstParses(x, a, b);
    FirstMakesChunks(x, a, b);
    FirstStoresChunks(x, a, b);
    FirstClaimsEmbedding(x, a, b);
    FirstLists(x, a, b);
    FirstEmbeds(x, a, b);
    FirstUpserts(x, a, b);
    FirstFailsToCommit(x, a, b);
    FirstReleases(x, a, b);
    SecondArrives(x, a, b);
    SecondClaims(x, a, b);
    SecondChecks(x, a, b);
    SecondRemakes(x, a, b);
    SecondDeletes(x, a, b);
    SecondReplaces(x, a, b);
    SecondEmbeds(x, a, b);
    SecondUpserts(x, a, b);
    SecondCommits(x, a, b);
    events := TheRun(x, a, b,
      Later(x, a, b, Ready, ReadyRows, OldPoints(x, a) + NewPoints(x, b), Done(Returned(BecameReady))));
    OtherVersion();
  }

  lemma TheRun(x: Uuid, a: nat, b: nat, s: State) returns (events: seq<Event>)
    requires Reachable(x, a, b, s)
    ensures OnlyTexts(events, x, a, b) && Run(TheEnv, Empty, events) == s
  {
    hide Run, OnlyTexts;
    events :| OnlyTexts(events, x, a, b) && Run(TheEnv, Empty, events) == s;
  }
}
