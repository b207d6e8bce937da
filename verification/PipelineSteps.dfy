/** Every event keeps the invariant, so every run does. */
module PipelineSteps {
  import opened Identifiers
  import opened Text
  import opened Tables
  import opened VectorIndex
  import opened Pipeline
  import opened PipelineInvariant

  // --- what a delivery's next counter needs -------------------------------------------

  /** What a holder knows of its claim. */
  lemma HolderBasics(env: Env, s: State, w: nat)
    requires Inv(env, s) && w in s.deliveries && HeldStage(s.deliveries[w].pc).Some?
    ensures var d := s.deliveries[w];
            && d.job.document.parsed.Some? && d.job.document.parsed.value in s.tables
            && var x := d.job.document.parsed.value;
            && var e := s.tables[x];
            && d.job.document == Spelt(env, x) && d.job.owner == Canonical(e.row.owner)
            && Some(d.job.contentHash) == e.row.contentHash
            && DeliveryOk(env, s, d)
            && JobOnRow(s.tables, d) && ClaimOn(s.tables, d)
            && StageData(HeldStage(d.pc).value, e)
            && (e.row.status == Processing || e.row.status == Failed)
            && NoOtherHolder(s, x, w)
  {
    DeliveryFacts(env, s, w);
    HolderIsAlone(env, s, w);
  }

  /** What a holder knows, with what it carries and the document it works on. */
  lemma HolderFacts(env: Env, s: State, w: nat)
    requires Inv(env, s) && w in s.deliveries && HeldStage(s.deliveries[w].pc).Some?
    ensures var d := s.deliveries[w];
            && d.job.document.parsed.Some? && d.job.document.parsed.value in s.tables
            && var x := d.job.document.parsed.value;
            && var e := s.tables[x];
            && d.job.document == Spelt(env, x) && d.job.owner == Canonical(e.row.owner)
            && Some(d.job.contentHash) == e.row.contentHash
            && DeliveryOk(env, s, d)
            && StageData(HeldStage(d.pc).value, e)
            && CarriedOk(env, d, x, e, s.points)
            && DocumentOk(env, x, e, s.points)
            && (e.row.status == Processing || e.row.status == Failed)
            && NoOtherHolder(s, x, w)
  {
    DeliveryFacts(env, s, w);
    DocumentFacts(env, s, s.deliveries[w].job.document.parsed.value);
    HolderIsAlone(env, s, w);
  }

  /** A delivery outside every claimed section, and past admission only if it was. */
  lemma OutsideOk(env: Env, s: State, r: State, d: Delivery, pc: Pc)
    requires DeliveryOk(env, s, d) && r.now == s.now
    requires !Holds(pc)
    requires Admitted(pc) ==> Admitted(d.pc) && JobOnRow(r.tables, d)
    ensures DeliveryOk(env, r, d.(pc := pc))
  {
  }

  /** A delivery that stays in its stage. */
  lemma InsideOk(env: Env, s: State, r: State, d: Delivery, pc: Pc)
    requires DeliveryOk(env, s, d) && r.now == s.now
    requires HeldStage(pc).Some?
    requires JobOnRow(r.tables, d) && ClaimOn(r.tables, d)
    requires StageData(HeldStage(pc).value, r.tables[d.job.document.parsed.value])
    requires CarriedOk(env, d.(pc := pc), d.job.document.parsed.value, r.tables[d.job.document.parsed.value], r.points)
    ensures DeliveryOk(env, r, d.(pc := pc))
  {
  }

  /** The given-up recorder, between two of its transactions. */
  lemma GivingUpOk(env: Env, s: State, r: State, d: Delivery, pc: Pc)
    requires DeliveryOk(env, s, d) && r.now == s.now
    requires pc.GivingUp? || pc.RecordingGivenUp? || pc.CheckingProcessing?
    requires Holds(pc) ==> ClaimOn(r.tables, d)
    ensures DeliveryOk(env, r, d.(pc := pc))
  {
  }

  lemma EnteredOk(env: Env, s: State, r: State, d: Delivery, stage: Stage)
    requires DeliveryOk(env, s, d) && r.now == s.now
    requires JobOnRow(r.tables, d) && ClaimOn(r.tables, d)
    requires StageData(stage, r.tables[d.job.document.parsed.value])
    ensures DeliveryOk(env, r, d.(pc := Entered(d, stage)))
  {
    InsideOk(env, s, r, d, Entered(d, stage));
  }

  // --- steps that only move the program counter ------------------------------------

  lemma HeldIsHolding(pc: Pc)
    ensures HeldStage(pc).Some? ==> Holds(pc)
  {
  }

  lemma AdmittedFacts(env: Env, s: State, w: nat)
    requires Inv(env, s) && w in s.deliveries
    ensures DeliveryOk(env, s, s.deliveries[w])
    ensures Admitted(s.deliveries[w].pc) ==> JobOnRow(s.tables, s.deliveries[w])
  {
  }

  /** Out of the claimed section, or never in it. */
  lemma Leaves(env: Env, s: State, w: nat, pc: Pc)
    requires Inv(env, s) && w in s.deliveries
    requires !Holds(pc) && (Admitted(pc) ==> Admitted(s.deliveries[w].pc))
    ensures Inv(env, At(s, w, pc))
  {
    hide Inv, DeliveryOk, Holds, Admitted;
    AdmittedFacts(env, s, w);
    var d := s.deliveries[w];
    OutsideOk(env, s, s, d, pc);
    OnlyPc(env, s, w, d.(pc := pc));
  }

  /** From one call of a stage to the next. */
  lemma Moves(env: Env, s: State, w: nat, pc: Pc)
    requires Inv(env, s) && w in s.deliveries
    requires HeldStage(pc).Some? && HeldStage(pc) == HeldStage(s.deliveries[w].pc)
    requires CarriedOk(env, s.deliveries[w].(pc := pc), s.deliveries[w].job.document.parsed.value,
                       s.tables[s.deliveries[w].job.document.parsed.value], s.points)
    ensures Inv(env, At(s, w, pc))
  {
    hide Inv, DeliveryOk, CarriedOk, HeldStage, Holds;
    HolderBasics(env, s, w);
    HeldIsHolding(pc);
    HeldIsHolding(s.deliveries[w].pc);
    var d := s.deliveries[w];
    InsideOk(env, s, s, d, pc);
    OnlyPc(env, s, w, d.(pc := pc));
  }

  /** The two settling transactions and the release after an interruption carry nothing but a reason. */
  lemma SettlingCarries(env: Env, d: Delivery, pc: Pc, x: Uuid, e: Entry, points: Points)
    requires pc.Failing? || pc.Releasing? || pc.Interrupted?
    requires pc.Failing? ==> e.row.deleted || (pc.reason != NoExtractedPages && pc.reason != NoChunksToEmbed)
    ensures CarriedOk(env, d.(pc := pc), x, e, points)
  {
  }

  lemma TransientCarries(env: Env, d: Delivery, stage: Stage, reason: Reason, x: Uuid, e: Entry, points: Points)
    requires reason != NoExtractedPages && reason != NoChunksToEmbed
    ensures HeldStage(Transient(d, stage, reason)) == Some(stage)
    ensures CarriedOk(env, d.(pc := Transient(d, stage, reason)), x, e, points)
  {
    hide Indexed, MadeFrom, Current, RecordsFor;
  }

  /** `_transient`, or an exception of the stage's own: to the failing or the releasing transaction. */
  lemma TransientInv(env: Env, s: State, w: nat, stage: Stage, reason: Reason)
    requires Inv(env, s) && w in s.deliveries && HeldStage(s.deliveries[w].pc) == Some(stage)
    requires reason != NoExtractedPages && reason != NoChunksToEmbed
    ensures Inv(env, At(s, w, Transient(s.deliveries[w], stage, reason)))
  {
    hide Inv, DeliveryOk, CarriedOk, HeldStage, Transient;
    HolderBasics(env, s, w);
    var d := s.deliveries[w];
    TransientCarries(env, d, stage, reason, d.job.document.parsed.value, s.tables[d.job.document.parsed.value], s.points);
    Moves(env, s, w, Transient(d, stage, reason));
  }

  // --- compare-and-sets that leave the data alone -------------------------------------

  /** Where a delivery's own row, and nothing else, is rewritten. */
  function WithRow(s: State, x: Uuid, row: Document, w: nat, pc: Pc): State
    requires x in s.tables && w in s.deliveries
  {
    At(s.(tables := s.tables[x := s.tables[x].(row := row)]), w, pc)
  }

  /** A status the stored data allows. */
  ghost predicate Fits(e: Entry, row: Document) {
    && (row.status == Failed <==> row.failureReason.Some?)
    && row.failureReason != Some(NoExtractedPages) && row.failureReason != Some(NoChunksToEmbed)
    && row.chunkCount == e.row.chunkCount
    && e.row.status != Ready && row.status != Ready
    && (row.status == Pending ==> StageData(ParseStage, e))
    && (row.status == Parsed ==> StageData(ChunkStage, e))
    && (row.status == Chunked ==> StageData(EmbedStage, e))
  }

  lemma FitsKeepsDocument(env: Env, x: Uuid, e: Entry, row: Document, points: Points)
    requires DocumentOk(env, x, e, points) && Fits(e, row) && SameColumns(e.row, row)
    ensures DocumentOk(env, x, e.(row := row), points)
  {
  }

  lemma RowInv(env: Env, s: State, x: Uuid, row: Document, w: nat, pc: Pc)
    requires Inv(env, s) && x in s.tables && w in s.deliveries && On(s.deliveries[w], x)
    requires SameColumns(s.tables[x].row, row) && row.deleted == s.tables[x].row.deleted && row.updatedAt == s.now
    requires Fits(s.tables[x], row)
    requires NoOtherHolder(s, x, w) || row.status == Processing || row.status == Failed
    requires Holds(pc) ==> NoOtherHolder(s, x, w)
    requires DeliveryOk(env, WithRow(s, x, row, w, pc), s.deliveries[w].(pc := pc))
    ensures Inv(env, WithRow(s, x, row, w, pc))
  {
    hide Inv, DeliveryOk, DocumentOk, PointOk, Fits, Holds;
    DocumentFacts(env, s, x);
    FitsKeepsDocument(env, x, s.tables[x], row, s.points);
    PointsStay(env, s, x, s.tables[x].(row := row));
    Frame(env, s, WithRow(s, x, row, w, pc), x, w);
  }

  /** The row a compare-and-set writes. */
  function Moved(row: Document, now: nat, next: Status, reason: Option<Reason>): Document {
    row.(status := next, failureReason := reason, updatedAt := now)
  }

  /** What a compare-and-set that matched makes of the state. */
  lemma CasIs(s: State, w: nat, expected: Status, next: Status, reason: Option<Reason>, moved: Pc, lost: Pc)
    requires w in s.deliveries
    ensures var d := s.deliveries[w];
            Cas(s, w, expected, next, reason, moved, lost)
            == if Matches(s.tables, d.job.document, d.job.owner, expected)
               then var x := d.job.document.parsed.value;
                    WithRow(s, x, Moved(s.tables[x].row, s.now, next, reason), w, moved)
               else At(s, w, lost)
  {
  }

  lemma ReleaseFits(env: Env, x: Uuid, e: Entry, points: Points, now: nat, stage: Stage)
    requires DocumentOk(env, x, e, points) && StageData(stage, e)
    requires e.row.status == Processing || e.row.status == Failed
    ensures Fits(e, Moved(e.row, now, StartsAt(stage), None))
  {
  }

  lemma ClaimFits(env: Env, x: Uuid, e: Entry, points: Points, now: nat)
    requires DocumentOk(env, x, e, points) && e.row.status != Ready
    ensures Fits(e, Moved(e.row, now, Processing, None))
  {
  }

  lemma FailFits(env: Env, x: Uuid, e: Entry, points: Points, now: nat, reason: Reason)
    requires DocumentOk(env, x, e, points) && e.row.status != Ready
    requires reason != NoExtractedPages && reason != NoChunksToEmbed
    ensures Fits(e, Moved(e.row, now, Failed, Some(reason)))
  {
  }

  /** `processing` to `failed`, by the delivery that holds it or by the given-up recorder. */
  lemma FailsInv(env: Env, s: State, w: nat, reason: Reason, moved: Pc, lost: Pc)
    requires Inv(env, s) && w in s.deliveries
    requires moved.Done? && lost.Done?
    requires Owned(s.tables, s.deliveries[w].job.document, s.deliveries[w].job.owner) ==>
               reason != NoExtractedPages && reason != NoChunksToEmbed
    ensures Inv(env, Cas(s, w, Processing, Failed, Some(reason), moved, lost))
  {
    hide Inv, DeliveryOk, DocumentOk, Fits, Cas;
    var d := s.deliveries[w];
    CasIs(s, w, Processing, Failed, Some(reason), moved, lost);
    if Matches(s.tables, d.job.document, d.job.owner, Processing) {
      var x := d.job.document.parsed.value;
      DocumentFacts(env, s, x);
      DeliveryFacts(env, s, w);
      var row := Moved(s.tables[x].row, s.now, Failed, Some(reason));
      FailFits(env, x, s.tables[x], s.points, s.now, reason);
      OutsideOk(env, s, WithRow(s, x, row, w, moved), d, moved);
      RowInv(env, s, x, row, w, moved);
    } else {
      Leaves(env, s, w, lost);
    }
  }

  /** `processing` back to where the stage started. */
  lemma ReleasesInv(env: Env, s: State, w: nat, stage: Stage, moved: Pc, lost: Pc)
    requires Inv(env, s) && w in s.deliveries
    requires HeldStage(s.deliveries[w].pc) == Some(stage)
    requires moved.Done? && lost.Done?
    ensures Inv(env, Cas(s, w, Processing, StartsAt(stage), None, moved, lost))
  {
    hide Inv, DeliveryOk, DocumentOk, Fits, Cas;
    var d := s.deliveries[w];
    CasIs(s, w, Processing, StartsAt(stage), None, moved, lost);
    if Matches(s.tables, d.job.document, d.job.owner, Processing) {
      HolderBasics(env, s, w);
      var x := d.job.document.parsed.value;
      DocumentFacts(env, s, x);
      var row := Moved(s.tables[x].row, s.now, StartsAt(stage), None);
      ReleaseFits(env, x, s.tables[x], s.points, s.now, stage);
      OutsideOk(env, s, WithRow(s, x, row, w, moved), d, moved);
      RowInv(env, s, x, row, w, moved);
    } else {
      Leaves(env, s, w, lost);
    }
  }

  /** A resting status to `processing`, for a stage. */
  lemma ClaimsInv(env: Env, s: State, w: nat, stage: Stage, lost: Pc)
    requires Inv(env, s) && w in s.deliveries && s.deliveries[w].pc == Claiming(stage) && lost.Done?
    ensures Inv(env, Cas(s, w, StartsAt(stage), Processing, None, Entered(s.deliveries[w], stage), lost))
  {
    hide Inv, DeliveryOk, DocumentOk, EntryOk, Fits, Cas, Entered;
    var d := s.deliveries[w];
    CasIs(s, w, StartsAt(stage), Processing, None, Entered(d, stage), lost);
    if Matches(s.tables, d.job.document, d.job.owner, StartsAt(stage)) {
      var x := d.job.document.parsed.value;
      DocumentFacts(env, s, x);
      AdmittedFacts(env, s, w);
      StartedAt(env, s, w);
      RestingIsFree(env, s, x, w);
      RestingData(env, x, s.tables[x], s.points, stage);
      var row := Moved(s.tables[x].row, s.now, Processing, None);
      ClaimFits(env, x, s.tables[x], s.points, s.now);
      var r := WithRow(s, x, row, w, Entered(d, stage));
      EnteredOk(env, s, r, d, stage);
      RowInv(env, s, x, row, w, Entered(d, stage));
    } else {
      Leaves(env, s, w, lost);
    }
  }

  lemma StartedAt(env: Env, s: State, w: nat)
    requires Inv(env, s) && w in s.deliveries
    ensures s.deliveries[w].startedAt <= s.now
    ensures Holds(s.deliveries[w].pc) ==> ClaimOn(s.tables, s.deliveries[w])
  {
  }

  lemma RestingData(env: Env, x: Uuid, e: Entry, points: Points, stage: Stage)
    requires DocumentOk(env, x, e, points) && e.row.status == StartsAt(stage)
    ensures StageData(stage, e)
  {
  }

  /** The same, for the given-up recorder. */
  lemma GiveUpClaimsInv(env: Env, s: State, w: nat, from: Status, moved: Pc, lost: Pc)
    requires Inv(env, s) && w in s.deliveries && s.deliveries[w].pc.GivingUp?
    requires from == Pending || from == Parsed || from == Chunked
    requires moved.GivingUp? || moved.RecordingGivenUp?
    requires lost.GivingUp? || lost.RecordingGivenUp? || lost.CheckingProcessing?
    requires Holds(lost) ==> s.deliveries[w].pc.claimed
    ensures Inv(env, Cas(s, w, from, Processing, None, moved, lost))
  {
    hide Inv, DeliveryOk, DocumentOk, EntryOk, Fits, Cas;
    var d := s.deliveries[w];
    CasIs(s, w, from, Processing, None, moved, lost);
    DeliveryFacts(env, s, w);
    StartedAt(env, s, w);
    if Matches(s.tables, d.job.document, d.job.owner, from) {
      var x := d.job.document.parsed.value;
      DocumentFacts(env, s, x);
      RestingIsFree(env, s, x, w);
      var row := Moved(s.tables[x].row, s.now, Processing, None);
      ClaimFits(env, x, s.tables[x], s.points, s.now);
      GivingUpOk(env, s, WithRow(s, x, row, w, moved), d, moved);
      RowInv(env, s, x, row, w, moved);
    } else {
      GivingUpOk(env, s, s, d, lost);
      OnlyPc(env, s, w, d.(pc := lost));
    }
  }

  // --- the four transactions --------------------------------------------------------------

  /** A holder's transaction that committed: only its own document's entry is new. */
  lemma CommitsInv(env: Env, s: State, w: nat, x: Uuid, e: Entry, pc: Pc)
    requires Inv(env, s) && w in s.deliveries && On(s.deliveries[w], x) && x in s.tables
    requires NoOtherHolder(s, x, w)
    requires SameColumns(s.tables[x].row, e.row) && e.row.deleted == s.tables[x].row.deleted && e.row.updatedAt == s.now
    requires DocumentOk(env, x, e, s.points)
    requires SameChunks(e.chunks, s.tables[x].chunks) || NoPoints(s.points, x)
    requires DeliveryOk(env, At(s.(tables := s.tables[x := e]), w, pc), s.deliveries[w].(pc := pc))
    ensures Inv(env, At(s.(tables := s.tables[x := e]), w, pc))
  {
    hide Inv, DeliveryOk, DocumentOk, PointOk, Holds;
    DocumentFacts(env, s, x);
    PointsStay(env, s, x, e);
    Frame(env, s, At(s.(tables := s.tables[x := e]), w, pc), x, w);
  }

  lemma NoChunksNoPoints(env: Env, s: State, x: Uuid)
    requires Inv(env, s) && x in s.tables && s.tables[x].chunks == []
    ensures NoPoints(s.points, x)
  {
    forall id | id in s.points
      ensures id.document != x
    {
      assert PointOk(env, s.tables, id, s.points[id]);
    }
  }

  /** What `_store_parsed` commits. */
  lemma StoreParsedMisses(t: Tables, now: nat, job: Job, pages: seq<Page>)
    requires !Matches(t, job.document, job.owner, Processing)
    ensures StoreParsed(t, now, job, pages) == NotMoved
  {
  }

  lemma StoreParsedIs(t: Tables, now: nat, job: Job, pages: seq<Page>)
    requires Matches(t, job.document, job.owner, Processing) && t[job.document.parsed.value].pages == []
    ensures var x := job.document.parsed.value;
            StoreParsed(t, now, job, pages)
            == Committed(t[x := Entry(Moved(t[x].row, now, Parsed, None), pages, t[x].chunks)])
  {
    var x := job.document.parsed.value;
    assert [] + pages == pages;
    var moved := Transition(t, now, job.document, job.owner, Processing, Parsed, None, None).0;
    assert AddPages(moved, job.document, job.owner, pages) == Some(moved[x := moved[x].(pages := pages)]);
    assert moved[x := moved[x].(pages := pages)] == t[x := Entry(Moved(t[x].row, now, Parsed, None), pages, t[x].chunks)];
  }

  lemma HolderParsed(env: Env, s: State, w: nat)
    requires Inv(env, s) && w in s.deliveries && s.deliveries[w].pc.StoringParsed?
    ensures var d := s.deliveries[w];
            var x := d.job.document.parsed.value;
            DocumentOk(env, x, Entry(Moved(s.tables[x].row, s.now, Parsed, None), d.pc.extracted, s.tables[x].chunks), s.points)
  {
    HolderFacts(env, s, w);
  }

  lemma StoringParsedInv(env: Env, s: State, w: nat)
    requires Inv(env, s) && w in s.deliveries && s.deliveries[w].pc.StoringParsed?
    ensures var d := s.deliveries[w];
            Inv(env, Settle(s, w, StoreParsed(s.tables, s.now, d.job, d.pc.extracted), Claiming(ChunkStage),
                            Transient(d, ParseStage, ProcessingFailure)))
  {
    hide Inv, DeliveryOk, DocumentOk, CarriedOk, StoreParsed;
    var d := s.deliveries[w];
    HolderBasics(env, s, w);
    var x := d.job.document.parsed.value;
    if Matches(s.tables, d.job.document, d.job.owner, Processing) {
      StoreParsedIs(s.tables, s.now, d.job, d.pc.extracted);
      var e := Entry(Moved(s.tables[x].row, s.now, Parsed, None), d.pc.extracted, s.tables[x].chunks);
      HolderParsed(env, s, w);
      var r := At(s.(tables := s.tables[x := e]), w, Claiming(ChunkStage));
      assert JobOnRow(r.tables, d);
      OutsideOk(env, s, r, d, Claiming(ChunkStage));
      CommitsInv(env, s, w, x, e, Claiming(ChunkStage));
    } else {
      StoreParsedMisses(s.tables, s.now, d.job, d.pc.extracted);
      Leaves(env, s, w, Done(Returned(ClaimLost)));
    }
  }

  /** What `_store_chunks` and `_replace_chunks` commit: the row, and one generation of rows. */
  function Rechunked(e: Entry, now: nat, next: Status, chunks: seq<Text.Chunk>, version: Version): Entry {
    Entry(Moved(e.row, now, next, None).(chunkCount := |chunks|), e.pages, RowsFor(chunks, version, None))
  }

  lemma StoreChunksMisses(t: Tables, now: nat, job: Job, config: Config, chunks: seq<Text.Chunk>)
    requires !Matches(t, job.document, job.owner, Processing)
    ensures StoreChunks(t, now, job, config, chunks) == NotMoved
  {
  }

  lemma StoreChunksIs(t: Tables, now: nat, job: Job, config: Config, chunks: seq<Text.Chunk>)
    requires Matches(t, job.document, job.owner, Processing) && t[job.document.parsed.value].chunks == []
    ensures var x := job.document.parsed.value;
            StoreChunks(t, now, job, config, chunks)
            == Committed(t[x := Rechunked(t[x], now, Chunked, chunks, config.version)])
  {
    var x := job.document.parsed.value;
    var rows := RowsFor(chunks, config.version, None);
    assert [] + rows == rows;
    var moved := Transition(t, now, job.document, job.owner, Processing, Chunked, None, Some(|chunks|)).0;
    assert AddChunks(moved, job.document, job.owner, chunks, config.version) == Some(moved[x := moved[x].(chunks := rows)]);
    assert moved[x := moved[x].(chunks := rows)] == t[x := Rechunked(t[x], now, Chunked, chunks, config.version)];
  }

  lemma ReplaceChunksMisses(t: Tables, now: nat, job: Job, config: Config, chunks: seq<Text.Chunk>)
    requires !Matches(t, job.document, job.owner, Processing)
    ensures ReplaceChunks(t, now, job, config, chunks) == NotMoved
  {
  }

  lemma ReplaceChunksIs(t: Tables, now: nat, job: Job, config: Config, chunks: seq<Text.Chunk>)
    requires Matches(t, job.document, job.owner, Processing)
    ensures var x := job.document.parsed.value;
            ReplaceChunks(t, now, job, config, chunks)
            == Committed(t[x := Rechunked(t[x], now, Processing, chunks, config.version)])
  {
    var x := job.document.parsed.value;
    var rows := RowsFor(chunks, config.version, None);
    assert [] + rows == rows;
    var moved := Transition(t, now, job.document, job.owner, Processing, Processing, None, Some(|chunks|)).0;
    var cleared := DeleteChunks(moved, job.document, job.owner);
    assert AddChunks(cleared, job.document, job.owner, chunks, config.version)
           == Some(cleared[x := cleared[x].(chunks := rows)]);
    assert cleared[x := cleared[x].(chunks := rows)] == t[x := Rechunked(t[x], now, Processing, chunks, config.version)];
  }

  lemma RechunkedOk(env: Env, x: Uuid, e: Entry, now: nat, next: Status, d: Delivery, chunks: seq<Text.Chunk>, points: Points)
    requires GoodEnv(env) && DocumentOk(env, x, e, points) && MadeFrom(env, d, e, chunks) && e.pages != []
    requires next == Chunked || next == Processing
    ensures DocumentOk(env, x, Rechunked(e, now, next, chunks, d.config.version), points)
  {
  }

  /** A holder about to store chunks made them from the document's own pages. */
  lemma HolderMade(env: Env, s: State, w: nat, made: seq<Text.Chunk>)
    requires Inv(env, s) && w in s.deliveries
    requires s.deliveries[w].pc == StoringChunks(made) || s.deliveries[w].pc == ReplacingChunks(made)
    ensures var d := s.deliveries[w];
            var x := d.job.document.parsed.value;
            && DocumentOk(env, x, s.tables[x], s.points) && s.tables[x].pages != []
            && MadeFrom(env, d, s.tables[x], made)
            && NoPoints(s.points, x)
  {
    HolderFacts(env, s, w);
    if s.deliveries[w].pc.StoringChunks? {
      NoChunksNoPoints(env, s, s.deliveries[w].job.document.parsed.value);
    }
  }

  lemma StoringChunksInv(env: Env, s: State, w: nat)
    requires GoodEnv(env) && Inv(env, s) && w in s.deliveries && s.deliveries[w].pc.StoringChunks?
    ensures var d := s.deliveries[w];
            Inv(env, Settle(s, w, StoreChunks(s.tables, s.now, d.job, d.config, d.pc.made), Claiming(EmbedStage),
                            Transient(d, ChunkStage, ChunkingFailure)))
  {
    hide Inv, DeliveryOk, DocumentOk, StoreChunks, CarriedOk;
    var d := s.deliveries[w];
    HolderBasics(env, s, w);
    var x := d.job.document.parsed.value;
    if Matches(s.tables, d.job.document, d.job.owner, Processing) {
      StoreChunksIs(s.tables, s.now, d.job, d.config, d.pc.made);
      HolderMade(env, s, w, d.pc.made);
      RechunkedOk(env, x, s.tables[x], s.now, Chunked, d, d.pc.made, s.points);
      var e := Rechunked(s.tables[x], s.now, Chunked, d.pc.made, d.config.version);
      var r := At(s.(tables := s.tables[x := e]), w, Claiming(EmbedStage));
      assert JobOnRow(r.tables, d);
      OutsideOk(env, s, r, d, Claiming(EmbedStage));
      CommitsInv(env, s, w, x, e, Claiming(EmbedStage));
    } else {
      StoreChunksMisses(s.tables, s.now, d.job, d.config, d.pc.made);
      Leaves(env, s, w, Done(Returned(ClaimLost)));
    }
  }

  lemma ReplacingChunksInv(env: Env, s: State, w: nat)
    requires GoodEnv(env) && Inv(env, s) && w in s.deliveries && s.deliveries[w].pc.ReplacingChunks?
    ensures var d := s.deliveries[w];
            Inv(env, Settle(s, w, ReplaceChunks(s.tables, s.now, d.job, d.config, d.pc.made), ListingChunks,
                            Transient(d, EmbedStage, ChunkingFailure)))
  {
    hide Inv, DeliveryOk, DocumentOk, ReplaceChunks;
    var d := s.deliveries[w];
    HolderBasics(env, s, w);
    var x := d.job.document.parsed.value;
    if Matches(s.tables, d.job.document, d.job.owner, Processing) {
      ReplaceChunksIs(s.tables, s.now, d.job, d.config, d.pc.made);
      HolderMade(env, s, w, d.pc.made);
      RechunkedOk(env, x, s.tables[x], s.now, Processing, d, d.pc.made, s.points);
      var e := Rechunked(s.tables[x], s.now, Processing, d.pc.made, d.config.version);
      var r := At(s.(tables := s.tables[x := e]), w, ListingChunks);
      assert JobOnRow(r.tables, d) && ClaimOn(r.tables, d) && StageData(EmbedStage, e);
      assert CarriedOk(env, d.(pc := ListingChunks), x, e, s.points);
      InsideOk(env, s, r, d, ListingChunks);
      CommitsInv(env, s, w, x, e, ListingChunks);
    } else {
      ReplaceChunksMisses(s.tables, s.now, d.job, d.config, d.pc.made);
      Leaves(env, s, w, Done(Returned(ClaimLost)));
    }
  }

  /** What `_store_ready` commits. */
  function ReadyEntry(e: Entry, now: nat, embedding: Embedding): Entry {
    Entry(Moved(e.row, now, Ready, None), e.pages, Marked(e.chunks, embedding))
  }

  lemma StoreReadyMisses(t: Tables, now: nat, job: Job, config: Config)
    requires !Matches(t, job.document, job.owner, Processing)
    ensures StoreReady(t, now, job, config) == NotMoved
  {
  }

  lemma StoreReadyIs(t: Tables, now: nat, job: Job, config: Config)
    requires Matches(t, job.document, job.owner, Processing)
    ensures var x := job.document.parsed.value;
            StoreReady(t, now, job, config) == Committed(t[x := ReadyEntry(t[x], now, config.embedding)])
  {
    var x := job.document.parsed.value;
    var moved := Transition(t, now, job.document, job.owner, Processing, Ready, None, None).0;
    assert moved[x := moved[x].(chunks := Marked(moved[x].chunks, config.embedding))]
           == t[x := ReadyEntry(t[x], now, config.embedding)];
  }

  lemma ReadyOk(env: Env, x: Uuid, e: Entry, now: nat, embedding: Embedding, points: Points)
    requires DocumentOk(env, x, e, points) && e.chunks != [] && Indexed(env, x, e, points, embedding)
    ensures DocumentOk(env, x, ReadyEntry(e, now, embedding), points)
  {
    var f := ReadyEntry(e, now, embedding);
    assert f.chunks == RowsFor(env.chunk(e.chunks[0].version, e.pages), e.chunks[0].version, Some(embedding));
    forall i | 0 <= i < |f.chunks|
      ensures IdOf(x, f.chunks[i]) in points
      ensures points[IdOf(x, f.chunks[i])] == StoredPoint(env, f.row.owner, IdOf(x, f.chunks[i]), f.chunks[i], embedding)
    {
      assert IdOf(x, e.chunks[i]) in points;
      assert IdOf(x, f.chunks[i]) == IdOf(x, e.chunks[i]);
    }
  }

  lemma HolderIndexed(env: Env, s: State, w: nat)
    requires Inv(env, s) && w in s.deliveries && s.deliveries[w].pc.StoringReady?
    ensures var d := s.deliveries[w];
            var e := s.tables[d.job.document.parsed.value];
            && DocumentOk(env, d.job.document.parsed.value, e, s.points)
            && e.chunks != [] && Indexed(env, d.job.document.parsed.value, e, s.points, d.config.embedding)
  {
    HolderFacts(env, s, w);
  }

  lemma StoringReadyInv(env: Env, s: State, w: nat)
    requires Inv(env, s) && w in s.deliveries && s.deliveries[w].pc.StoringReady?
    ensures var d := s.deliveries[w];
            Inv(env, Settle(s, w, StoreReady(s.tables, s.now, d.job, d.config), Done(Returned(BecameReady)),
                            Transient(d, EmbedStage, ProcessingFailure)))
  {
    hide Inv, DeliveryOk, DocumentOk, StoreReady, CarriedOk;
    var d := s.deliveries[w];
    HolderBasics(env, s, w);
    var x := d.job.document.parsed.value;
    if Matches(s.tables, d.job.document, d.job.owner, Processing) {
      StoreReadyIs(s.tables, s.now, d.job, d.config);
      HolderIndexed(env, s, w);
      ReadyOk(env, x, s.tables[x], s.now, d.config.embedding, s.points);
      var e := ReadyEntry(s.tables[x], s.now, d.config.embedding);
      OutsideOk(env, s, At(s.(tables := s.tables[x := e]), w, Done(Returned(BecameReady))), d, Done(Returned(BecameReady)));
      CommitsInv(env, s, w, x, e, Done(Returned(BecameReady)));
    } else {
      StoreReadyMisses(s.tables, s.now, d.job, d.config);
      Leaves(env, s, w, Done(Returned(ClaimLost)));
    }
  }

  // --- writing and deleting points ------------------------------------------------------------

  /** Only points of `x` differ, and each describes a row of `x`. */
  ghost predicate PointsOf(env: Env, s: State, x: Uuid, points: Points) {
    && (forall id: ChunkId | id.document != x :: (id in points <==> id in s.points))
    && (forall id | id in points && id.document != x :: points[id] == s.points[id])
    && (forall id | id in points && id.document == x :: PointOk(env, s.tables, id, points[id]))
  }

  lemma NotReadyOk(env: Env, x: Uuid, e: Entry, points: Points, after: Points)
    requires DocumentOk(env, x, e, points) && e.row.status != Ready
    ensures DocumentOk(env, x, e, after)
  {
  }

  /** A holder in the embed stage changed its document's points, and they still describe its rows. */
  lemma PointsInv(env: Env, s: State, w: nat, points: Points, pc: Pc)
    requires Inv(env, s) && w in s.deliveries && HeldStage(s.deliveries[w].pc) == Some(EmbedStage)
    requires PointsOf(env, s, s.deliveries[w].job.document.parsed.value, points)
    requires DeliveryOk(env, At(s.(points := points), w, pc), s.deliveries[w].(pc := pc))
    ensures Inv(env, At(s.(points := points), w, pc))
  {
    hide Inv, DeliveryOk, DocumentOk, PointOk, HeldStage, Holds;
    HolderBasics(env, s, w);
    var x := s.deliveries[w].job.document.parsed.value;
    DocumentFacts(env, s, x);
    NotReadyOk(env, x, s.tables[x], s.points, points);
    Frame(env, s, At(s.(points := points), w, pc), x, w);
  }

  /** The records of a list of rows: one per row, under its own id, and no other. */
  lemma {:induction false} RecordsAre(env: Env, job: Job, config: Config, document: Uuid, rows: seq<ChunkRow>, n: nat)
    requires n <= |rows| && forall i | 0 <= i < |rows| :: rows[i].chunk.index == i
    ensures var records := RecordsFor(env, job, config, document, rows[..n]);
            && (forall i | 0 <= i < n ::
                  && IdOf(document, rows[i]) in records
                  && records[IdOf(document, rows[i])]
                     == PointFor(env, job, config, IdOf(document, rows[i]), rows[i]))
            && (forall id | id in records :: id.index < n && id == IdOf(document, rows[id.index]))
  {
    if n > 0 {
      RecordsAre(env, job, config, document, rows, n - 1);
      assert rows[..n][..n - 1] == rows[..n - 1];
    }
  }

  /** The records of a document's rows are exactly the points those rows should have. */
  lemma {:induction false} RecordsFit(env: Env, t: Tables, d: Delivery, x: Uuid, records: Points)
    requires GoodEnv(env) && x in t && EntryOk(env, t[x]) && Current(d, t[x])
    requires d.job.document == Spelt(env, x) && d.job.owner == Canonical(t[x].row.owner)
    requires records == RecordsFor(env, d.job, d.config, x, t[x].chunks)
    ensures forall id | id in records :: id.document == x && PointOk(env, t, id, records[id])
    ensures Indexed(env, x, t[x], records, d.config.embedding)
  {
    RecordsAre(env, d.job, d.config, x, t[x].chunks, |t[x].chunks|);
    assert t[x].chunks[..|t[x].chunks|] == t[x].chunks;
  }

  lemma SomeRecordsFit(env: Env, s: State, w: nat, some: Points)
    requires GoodEnv(env) && Inv(env, s) && w in s.deliveries && s.deliveries[w].pc.Upserting?
    requires some.Keys <= s.deliveries[w].pc.records.Keys
             && forall id | id in some :: some[id] == s.deliveries[w].pc.records[id]
    ensures PointsOf(env, s, s.deliveries[w].job.document.parsed.value, s.points + some)
  {
    HolderFacts(env, s, w);
    var d := s.deliveries[w];
    RecordsFit(env, s.tables, d, d.job.document.parsed.value, d.pc.records);
    forall id | id in s.points + some
      ensures PointOk(env, s.tables, id, (s.points + some)[id])
    {
      assert id in s.points ==> PointOk(env, s.tables, id, s.points[id]);
    }
  }

  /** Where a delivery may go when its vector-store call did not return. */
  predicate AfterStoreCall(pc: Pc) {
    || (pc.Failing? && pc.stage == EmbedStage && pc.reason == VectorStoreFailure)
    || (pc.Releasing? && pc.stage == EmbedStage)
    || (pc.Interrupted? && pc.stage == EmbedStage)
    || (!Holds(pc) && !Admitted(pc))
  }

  lemma AfterStoreCallOk(env: Env, s: State, w: nat, points: Points, pc: Pc)
    requires Inv(env, s) && w in s.deliveries && HeldStage(s.deliveries[w].pc) == Some(EmbedStage)
    requires AfterStoreCall(pc)
    ensures DeliveryOk(env, At(s.(points := points), w, pc), s.deliveries[w].(pc := pc))
  {
    hide Inv, DeliveryOk, CarriedOk;
    DeliveryFacts(env, s, w);
    var d := s.deliveries[w];
    var r := At(s.(points := points), w, pc);
    if HeldStage(pc).Some? {
      HolderBasics(env, s, w);
      SettlingCarries(env, d, pc, d.job.document.parsed.value, s.tables[d.job.document.parsed.value], points);
      InsideOk(env, s, r, d, pc);
    } else {
      OutsideOk(env, s, r, d, pc);
    }
  }

  lemma UpsertingInv(env: Env, s: State, w: nat, took: set<ChunkId>, pc: Pc)
    requires GoodEnv(env) && Inv(env, s) && w in s.deliveries && s.deliveries[w].pc.Upserting?
    requires AfterStoreCall(pc)
    ensures Inv(env, At(s.(points := PartialEffect(s.points, s.deliveries[w], took)), w, pc))
  {
    hide Inv, DeliveryOk, PointsOf;
    var d := s.deliveries[w];
    var points := PartialEffect(s.points, d, took);
    SomeRecordsFit(env, s, w, Part(d.pc.records, took));
    AfterStoreCallOk(env, s, w, points, pc);
    PointsInv(env, s, w, points, pc);
  }

  /** Once the whole batch is written, every row has its point. */
  lemma AllRecordsIndexed(env: Env, s: State, w: nat)
    requires GoodEnv(env) && Inv(env, s) && w in s.deliveries && s.deliveries[w].pc.Upserting?
    ensures var d := s.deliveries[w];
            var x := d.job.document.parsed.value;
            CarriedOk(env, d.(pc := StoringReady), x, s.tables[x], s.points + d.pc.records)
  {
    HolderFacts(env, s, w);
    var d := s.deliveries[w];
    RecordsFit(env, s.tables, d, d.job.document.parsed.value, d.pc.records);
  }

  lemma UpsertedInv(env: Env, s: State, w: nat)
    requires GoodEnv(env) && Inv(env, s) && w in s.deliveries && s.deliveries[w].pc.Upserting?
    ensures Inv(env, At(s.(points := s.points + s.deliveries[w].pc.records), w, StoringReady))
  {
    hide Inv, DeliveryOk, PointsOf, CarriedOk;
    var d := s.deliveries[w];
    HolderBasics(env, s, w);
    var x := d.job.document.parsed.value;
    var points := s.points + d.pc.records;
    SomeRecordsFit(env, s, w, d.pc.records);
    AllRecordsIndexed(env, s, w);
    InsideOk(env, s, At(s.(points := points), w, StoringReady), d, StoringReady);
    PointsInv(env, s, w, points, StoringReady);
  }

  /** A filter on payload text finds exactly the points of the document, because payloads are spelt as the jobs are. */
  lemma DeleteFindsThePoints(env: Env, s: State, w: nat, id: ChunkId)
    requires Inv(env, s) && w in s.deliveries && HeldStage(s.deliveries[w].pc).Some? && id in s.points
    ensures Attributed(s.points[id], s.deliveries[w].job.document, s.deliveries[w].job.owner)
            <==> id.document == s.deliveries[w].job.document.parsed.value
    ensures PointOk(env, s.tables, id, s.points[id])
  {
    HolderFacts(env, s, w);
    assert PointOk(env, s.tables, id, s.points[id]);
  }

  lemma SomePointsGone(env: Env, s: State, w: nat, points: Points)
    requires w in s.deliveries && s.deliveries[w].job.document.parsed.Some?
    requires Inv(env, s) && s.deliveries[w].pc.DeletingVectors?
    requires points.Keys <= s.points.Keys && forall id | id in points :: points[id] == s.points[id]
    requires forall id | id in s.points && id !in points ::
               Attributed(s.points[id], s.deliveries[w].job.document, s.deliveries[w].job.owner)
    ensures PointsOf(env, s, s.deliveries[w].job.document.parsed.value, points)
  {
    hide Inv;
    forall id | id in s.points
      ensures id in points ==> PointOk(env, s.tables, id, points[id])
      ensures id !in points ==> id.document == s.deliveries[w].job.document.parsed.value
    {
      DeleteFindsThePoints(env, s, w, id);
    }
  }

  lemma DeletingInv(env: Env, s: State, w: nat, took: set<ChunkId>, pc: Pc)
    requires Inv(env, s) && w in s.deliveries && s.deliveries[w].pc.DeletingVectors?
    requires AfterStoreCall(pc)
    ensures Inv(env, At(s.(points := PartialEffect(s.points, s.deliveries[w], took)), w, pc))
  {
    hide Inv, DeliveryOk, PointsOf;
    HolderBasics(env, s, w);
    var points := PartialEffect(s.points, s.deliveries[w], took);
    SomePointsGone(env, s, w, points);
    AfterStoreCallOk(env, s, w, points, pc);
    PointsInv(env, s, w, points, pc);
  }

  lemma DeletedCarries(env: Env, s: State, w: nat)
    requires Inv(env, s) && w in s.deliveries && s.deliveries[w].pc.DeletingVectors?
    ensures var d := s.deliveries[w];
            var x := d.job.document.parsed.value;
            CarriedOk(env, d.(pc := ReplacingChunks(d.pc.made)), x, s.tables[x],
                      WithoutDocument(s.points, d.job.document, d.job.owner))
  {
    HolderFacts(env, s, w);
    var d := s.deliveries[w];
    forall id | id in WithoutDocument(s.points, d.job.document, d.job.owner)
      ensures id.document != d.job.document.parsed.value
    {
      DeleteFindsThePoints(env, s, w, id);
    }
  }

  lemma DeletedInv(env: Env, s: State, w: nat)
    requires Inv(env, s) && w in s.deliveries && s.deliveries[w].pc.DeletingVectors?
    ensures var d := s.deliveries[w];
            Inv(env, At(s.(points := WithoutDocument(s.points, d.job.document, d.job.owner)), w, ReplacingChunks(d.pc.made)))
  {
    hide Inv, DeliveryOk, PointsOf, CarriedOk;
    HolderBasics(env, s, w);
    var d := s.deliveries[w];
    var points := WithoutDocument(s.points, d.job.document, d.job.owner);
    DeletedCarries(env, s, w);
    SomePointsGone(env, s, w, points);
    InsideOk(env, s, At(s.(points := points), w, ReplacingChunks(d.pc.made)), d, ReplacingChunks(d.pc.made));
    PointsInv(env, s, w, points, ReplacingChunks(d.pc.made));
  }
}
