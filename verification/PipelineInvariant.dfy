/** What every step of the pipeline keeps. */
module PipelineInvariant {
  import opened Identifiers
  import opened Text
  import opened Tables
  import opened VectorIndex
  import opened Pipeline

  /** The chunker numbers its chunks from zero, without a gap. */
  ghost predicate GoodEnv(env: Env) {
    forall v, pages, i | 0 <= i < |env.chunk(v, pages)| :: env.chunk(v, pages)[i].index == i
  }

  // --- one document -------------------------------------------------------------

  /** The one point a chunk row has once `embedding` has embedded it. */
  function StoredPoint(env: Env, owner: Uuid, id: ChunkId, row: ChunkRow, embedding: Embedding): Point {
    Point(env.embed(embedding, row.chunk.content),
          Payload(Canonical(owner), Spelt(env, id.document), Canonical(id), row.chunk.index, row.chunk.section,
                  row.chunk.pageStart, row.chunk.pageEnd, row.version, embedding))
  }

  /** The rows are one generation: all the chunker's output, under one version and one embedding. */
  ghost predicate OneGeneration(env: Env, e: Entry) {
    e.chunks != [] ==>
      && e.pages != []
      && e.chunks == RowsFor(env.chunk(e.chunks[0].version, e.pages), e.chunks[0].version, e.chunks[0].embedding)
  }

  /** The data a stage starts from. */
  predicate StageData(stage: Stage, e: Entry) {
    match stage
    case ParseStage => e.pages == []
    case ChunkStage => e.pages != [] && e.chunks == []
    case EmbedStage => e.chunks != []
  }

  ghost predicate EntryOk(env: Env, e: Entry) {
    && (e.row.status == Failed <==> e.row.failureReason.Some?)
    && e.row.failureReason != Some(NoExtractedPages) && e.row.failureReason != Some(NoChunksToEmbed)
    && e.row.chunkCount == |e.chunks|
    && (e.pages != [] ==> e.row.contentHash.Some? && e.pages == env.extract(e.row.contentHash.value))
    && OneGeneration(env, e)
    && (e.row.status == Pending ==> StageData(ParseStage, e))
    && (e.row.status == Parsed ==> StageData(ChunkStage, e))
    && (e.row.status == Chunked ==> StageData(EmbedStage, e))
    && (e.row.status == Ready ==> e.chunks != [] && e.chunks[0].embedding.Some?)
    && (e.row.status != Ready && e.chunks != [] ==> e.chunks[0].embedding == None)
  }

  /** Every chunk row has its point, written by this embedding. */
  ghost predicate Indexed(env: Env, document: Uuid, e: Entry, points: Points, embedding: Embedding) {
    forall i | 0 <= i < |e.chunks| ::
      && IdOf(document, e.chunks[i]) in points
      && points[IdOf(document, e.chunks[i])]
         == StoredPoint(env, e.row.owner, IdOf(document, e.chunks[i]), e.chunks[i], embedding)
  }

  ghost predicate DocumentOk(env: Env, document: Uuid, e: Entry, points: Points) {
    && EntryOk(env, e)
    && (e.row.status == Ready ==> Indexed(env, document, e, points, e.chunks[0].embedding.value))
  }

  /** A point describes a chunk row its document still has. */
  ghost predicate PointOk(env: Env, t: Tables, id: ChunkId, p: Point) {
    && id.document in t
    && id.index < |t[id.document].chunks|
    && t[id.document].chunks[id.index].version == id.version
    && p == StoredPoint(env, t[id.document].row.owner, id, t[id.document].chunks[id.index], p.payload.embedding)
  }

  predicate NoPoints(points: Points, document: Uuid) {
    forall id | id in points :: id.document != document
  }

  // --- one delivery ---------------------------------------------------------------

  predicate On(d: Delivery, document: Uuid) {
    d.job.document.parsed == Some(document)
  }

  /** Past `ingest`'s checks. */
  predicate Admitted(pc: Pc) {
    pc.Claiming? || HeldStage(pc).Some?
  }

  predicate JobOnRow(t: Tables, d: Delivery) {
    && d.job.document.parsed.Some? && d.job.document.parsed.value in t
    && JobDisagreesWith(d.job, t[d.job.document.parsed.value].row) == None
    && d.pageCount == t[d.job.document.parsed.value].row.pageCount
  }

  /** The claim is held, or was lost to a failure that nothing leaves. */
  predicate ClaimOn(t: Tables, d: Delivery) {
    && d.job.document.parsed.Some? && d.job.document.parsed.value in t
    && var row := t[d.job.document.parsed.value].row;
    && d.job.owner.parsed == Some(row.owner)
    && (row.status == Processing || row.status == Failed)
    && d.startedAt <= row.updatedAt
  }

  ghost predicate MadeFrom(env: Env, d: Delivery, e: Entry, chunks: seq<Text.Chunk>) {
    chunks != [] && chunks == env.chunk(d.config.version, e.pages)
  }

  /** The rows are of the version this worker is configured to produce. */
  predicate Current(d: Delivery, e: Entry) {
    e.chunks != [] && e.chunks[0].version == d.config.version
  }

  /** What the values a delivery carries have to do with the stored data. */
  ghost predicate CarriedOk(env: Env, d: Delivery, document: Uuid, e: Entry, points: Points) {
    match d.pc
    case StoringParsed(pages) => HasText(pages) && pages == env.extract(d.job.contentHash)
    case MakingChunks(pages) => pages == e.pages
    case StoringChunks(chunks) => MadeFrom(env, d, e, chunks)
    case RemakingChunks(pages) => pages == e.pages
    case DeletingVectors(chunks) => MadeFrom(env, d, e, chunks)
    case ReplacingChunks(chunks) => MadeFrom(env, d, e, chunks) && NoPoints(points, document)
    case ListingChunks => Current(d, e)
    case EmbeddingText(rows) => Current(d, e) && rows == e.chunks
    case Upserting(records) => Current(d, e) && records == RecordsFor(env, d.job, d.config, document, e.chunks)
    case StoringReady => Current(d, e) && Indexed(env, document, e, points, d.config.embedding)
    case Failing(_, reason) => e.row.deleted || (reason != NoExtractedPages && reason != NoChunksToEmbed)
    case _ => true
  }

  ghost predicate DeliveryOk(env: Env, s: State, d: Delivery) {
    && SpellsAlike(env, d.job)
    && d.startedAt <= s.now
    && (Admitted(d.pc) ==> JobOnRow(s.tables, d))
    && (Holds(d.pc) ==> ClaimOn(s.tables, d))
    && (HeldStage(d.pc).Some? ==>
          var e := s.tables[d.job.document.parsed.value];
          && StageData(HeldStage(d.pc).value, e)
          && CarriedOk(env, d, d.job.document.parsed.value, e, s.points))
  }

  /** No two deliveries are inside a claimed section of one document. */
  predicate Exclusive(s: State) {
    forall v, w | v in s.deliveries && w in s.deliveries && v != w
                  && Holds(s.deliveries[v].pc) && Holds(s.deliveries[w].pc) ::
      s.deliveries[v].job.document.parsed != s.deliveries[w].job.document.parsed
  }

  ghost predicate Inv(env: Env, s: State) {
    && (forall x | x in s.tables :: DocumentOk(env, x, s.tables[x], s.points) && s.tables[x].row.updatedAt <= s.now)
    && (forall id | id in s.points :: PointOk(env, s.tables, id, s.points[id]))
    && (forall w | w in s.deliveries :: DeliveryOk(env, s, s.deliveries[w]))
    && Exclusive(s)
    && UniqueContent(s.tables)
  }

  lemma EmptyInv(env: Env)
    ensures Inv(env, Empty)
  {
  }

  // --- framing ----------------------------------------------------------------------

  /** The columns no statement writes. */
  predicate SameColumns(a: Document, b: Document) {
    && a.owner == b.owner && a.storageKey == b.storageKey && a.contentHash == b.contentHash
    && a.mimeType == b.mimeType && a.pageCount == b.pageCount
  }

  /** Only document `x` and delivery `w` may differ. */
  ghost predicate Touches(s: State, r: State, x: Uuid, w: nat)
    requires x in s.tables && x in r.tables
  {
    && r.now == s.now
    && w in s.deliveries
    && r.deliveries.Keys == s.deliveries.Keys
    && (forall v | v in s.deliveries && v != w :: r.deliveries[v] == s.deliveries[v])
    && r.tables.Keys == s.tables.Keys
    && (forall y | y in s.tables && y != x :: r.tables[y] == s.tables[y])
    && (forall id: ChunkId | id.document != x :: (id in r.points <==> id in s.points))
    && (forall id | id in s.points && id.document != x :: r.points[id] == s.points[id])
    && SameColumns(s.tables[x].row, r.tables[x].row)
    && (s.tables[x].row.deleted ==> r.tables[x].row.deleted)
    && s.tables[x].row.updatedAt <= r.tables[x].row.updatedAt
  }

  /** Nothing another holder of `x` relies on has changed. */
  predicate Undisturbed(s: State, r: State, x: Uuid)
    requires x in s.tables && x in r.tables
  {
    && r.points == s.points
    && r.tables[x].pages == s.tables[x].pages
    && r.tables[x].chunks == s.tables[x].chunks
    && (r.tables[x].row.status == Processing || r.tables[x].row.status == Failed)
  }

  predicate NoOtherHolder(s: State, x: Uuid, w: nat) {
    forall v | v in s.deliveries && v != w && On(s.deliveries[v], x) :: !Holds(s.deliveries[v].pc)
  }

  /** The values a delivery carries stay right while its document's data and points stay. */
  lemma CarriedKeeps(env: Env, d: Delivery, x: Uuid, e: Entry, f: Entry, points: Points, after: Points)
    requires CarriedOk(env, d, x, e, points)
    requires f.pages == e.pages && f.chunks == e.chunks && f.row.owner == e.row.owner
    requires e.row.deleted ==> f.row.deleted
    requires forall id: ChunkId | id.document == x :: (id in points <==> id in after)
    requires forall id | id in points && id.document == x :: after[id] == points[id]
    ensures CarriedOk(env, d, x, f, after)
  {
    if d.pc.StoringReady? {
      forall i | 0 <= i < |f.chunks|
        ensures IdOf(x, f.chunks[i]) in after
        ensures after[IdOf(x, f.chunks[i])]
                == StoredPoint(env, f.row.owner, IdOf(x, f.chunks[i]), f.chunks[i], d.config.embedding)
      {
        assert IdOf(x, e.chunks[i]) in points;
      }
    }
  }

  lemma StageDataKeeps(stage: Stage, e: Entry, f: Entry)
    requires StageData(stage, e) && f.pages == e.pages && f.chunks == e.chunks
    ensures StageData(stage, f)
  {
  }

  lemma OthersKeep(env: Env, s: State, r: State, x: Uuid, w: nat, v: nat)
    requires Inv(env, s)
    requires x in s.tables && x in r.tables && Touches(s, r, x, w)
    requires NoOtherHolder(s, x, w) || Undisturbed(s, r, x)
    requires v in s.deliveries && v != w
    ensures DeliveryOk(env, r, r.deliveries[v])
  {
    hide Inv, CarriedOk, StageData, Holds, HeldStage, DeliveryOk, Undisturbed, SameColumns;
    var d := s.deliveries[v];
    DeliveryFacts(env, s, v);
    JobsKeep(env, s, r, x, w, d);
    if Holds(d.pc) {
      ClaimsKeep(env, s, r, x, w, v);
    } else {
      HoldsNothing(d.pc);
    }
    if HeldStage(d.pc).Some? {
      HeldIsHolding(d.pc);
      DataKeeps(env, s, r, x, w, v);
    }
    DeliveryIs(env, r, d);
  }

  lemma HoldsNothing(pc: Pc)
    requires !Holds(pc)
    ensures HeldStage(pc) == None
  {
  }

  lemma HeldIsHolding(pc: Pc)
    requires HeldStage(pc).Some?
    ensures Holds(pc)
  {
  }

  /** What `DeliveryOk` asks, part by part. */
  lemma DeliveryIs(env: Env, s: State, d: Delivery)
    requires SpellsAlike(env, d.job) && d.startedAt <= s.now
    requires Admitted(d.pc) ==> JobOnRow(s.tables, d)
    requires Holds(d.pc) ==> ClaimOn(s.tables, d)
    requires HeldStage(d.pc).Some? ==>
               && d.job.document.parsed.Some? && d.job.document.parsed.value in s.tables
               && StageData(HeldStage(d.pc).value, s.tables[d.job.document.parsed.value])
               && CarriedOk(env, d, d.job.document.parsed.value, s.tables[d.job.document.parsed.value], s.points)
    ensures DeliveryOk(env, s, d)
  {
    hide CarriedOk, StageData, HeldStage, Holds, JobOnRow, ClaimOn;
  }

  /** No column a job is compared with changes. */
  lemma JobsKeep(env: Env, s: State, r: State, x: Uuid, w: nat, d: Delivery)
    requires DeliveryOk(env, s, d)
    requires x in s.tables && x in r.tables && Touches(s, r, x, w)
    ensures SpellsAlike(env, d.job) && d.startedAt <= r.now
    ensures Admitted(d.pc) ==> JobOnRow(r.tables, d)
  {
    hide CarriedOk, StageData, HeldStage, Holds, ClaimOn;
  }

  /** Another holder's claim stays. */
  lemma ClaimsKeep(env: Env, s: State, r: State, x: Uuid, w: nat, v: nat)
    requires x in s.tables && x in r.tables && Touches(s, r, x, w)
    requires NoOtherHolder(s, x, w) || Undisturbed(s, r, x)
    requires v in s.deliveries && v != w && Holds(s.deliveries[v].pc) && DeliveryOk(env, s, s.deliveries[v])
    ensures ClaimOn(s.tables, s.deliveries[v]) && ClaimOn(r.tables, s.deliveries[v])
    ensures s.deliveries[v].job.document.parsed == Some(x) ==> Undisturbed(s, r, x)
  {
    hide CarriedOk, StageData, HeldStage, Holds, JobOnRow;
  }

  /** So does the data it relies on, and what it carries. */
  lemma DataKeeps(env: Env, s: State, r: State, x: Uuid, w: nat, v: nat)
    requires x in s.tables && x in r.tables && Touches(s, r, x, w)
    requires v in s.deliveries && HeldStage(s.deliveries[v].pc).Some? && DeliveryOk(env, s, s.deliveries[v])
    requires ClaimOn(s.tables, s.deliveries[v]) && ClaimOn(r.tables, s.deliveries[v])
    requires s.deliveries[v].job.document.parsed == Some(x) ==> Undisturbed(s, r, x)
    ensures var d := s.deliveries[v];
            var y := d.job.document.parsed.value;
            && y in r.tables && StageData(HeldStage(d.pc).value, r.tables[y])
            && CarriedOk(env, d, y, r.tables[y], r.points)
  {
    hide CarriedOk, StageData, HeldStage, Holds, JobOnRow;
    var d := s.deliveries[v];
    var y := d.job.document.parsed.value;
    StageDataKeeps(HeldStage(d.pc).value, s.tables[y], r.tables[y]);
    CarriedKeeps(env, d, y, s.tables[y], r.tables[y], s.points, r.points);
  }

  /** One document's entry, points and delivery are replaced, each by one that is right: all is right. */
  lemma Frame(env: Env, s: State, r: State, x: Uuid, w: nat)
    requires Inv(env, s)
    requires x in s.tables && x in r.tables && Touches(s, r, x, w)
    requires NoOtherHolder(s, x, w) || Undisturbed(s, r, x)
    requires DocumentOk(env, x, r.tables[x], r.points) && r.tables[x].row.updatedAt <= r.now
    requires forall id | id in r.points && id.document == x :: PointOk(env, r.tables, id, r.points[id])
    requires DeliveryOk(env, r, r.deliveries[w])
    requires r.deliveries[w].job == s.deliveries[w].job
    requires Holds(r.deliveries[w].pc) ==> On(r.deliveries[w], x) && NoOtherHolder(s, x, w)
    ensures Inv(env, r)
  {
    FrameDocuments(env, s, r, x, w);
    FramePoints(env, s, r, x, w);
    forall v | v in r.deliveries
      ensures DeliveryOk(env, r, r.deliveries[v])
    {
      if v != w {
        OthersKeep(env, s, r, x, w, v);
      }
    }
    FrameExclusive(s, r, x, w);
    hide DocumentOk, PointOk, DeliveryOk, Exclusive, UniqueContent;
  }

  lemma FrameDocuments(env: Env, s: State, r: State, x: Uuid, w: nat)
    requires forall y | y in s.tables :: DocumentOk(env, y, s.tables[y], s.points) && s.tables[y].row.updatedAt <= s.now
    requires x in s.tables && x in r.tables && Touches(s, r, x, w)
    requires DocumentOk(env, x, r.tables[x], r.points) && r.tables[x].row.updatedAt <= r.now
    ensures forall y | y in r.tables :: DocumentOk(env, y, r.tables[y], r.points) && r.tables[y].row.updatedAt <= r.now
  {
    forall y | y in r.tables
      ensures DocumentOk(env, y, r.tables[y], r.points) && r.tables[y].row.updatedAt <= r.now
    {
      if y != x {
        assert DocumentOk(env, y, s.tables[y], s.points);
        hide EntryOk;
      }
    }
  }

  lemma FramePoints(env: Env, s: State, r: State, x: Uuid, w: nat)
    requires forall id | id in s.points :: PointOk(env, s.tables, id, s.points[id])
    requires x in s.tables && x in r.tables && Touches(s, r, x, w)
    requires forall id | id in r.points && id.document == x :: PointOk(env, r.tables, id, r.points[id])
    ensures forall id | id in r.points :: PointOk(env, r.tables, id, r.points[id])
  {
    forall id | id in r.points
      ensures PointOk(env, r.tables, id, r.points[id])
    {
      if id.document != x {
        assert PointOk(env, s.tables, id, s.points[id]);
      }
    }
  }

  lemma FrameExclusive(s: State, r: State, x: Uuid, w: nat)
    requires Exclusive(s) && UniqueContent(s.tables)
    requires x in s.tables && x in r.tables && Touches(s, r, x, w)
    requires r.deliveries[w].job == s.deliveries[w].job
    requires Holds(r.deliveries[w].pc) ==> On(r.deliveries[w], x) && NoOtherHolder(s, x, w)
    ensures Exclusive(r) && UniqueContent(r.tables)
  {
  }

  lemma DocumentFacts(env: Env, s: State, x: Uuid)
    requires Inv(env, s) && x in s.tables
    ensures DocumentOk(env, x, s.tables[x], s.points) && s.tables[x].row.updatedAt <= s.now
  {
  }

  lemma DeliveryFacts(env: Env, s: State, w: nat)
    requires Inv(env, s) && w in s.deliveries
    ensures DeliveryOk(env, s, s.deliveries[w])
  {
  }

  /** The same rows, but for what embedded them. */
  predicate SameChunks(a: seq<ChunkRow>, b: seq<ChunkRow>) {
    |a| == |b| && forall i | 0 <= i < |a| :: a[i].chunk == b[i].chunk && a[i].version == b[i].version
  }

  /** Points outlive a change of their document's entry that keeps its chunks, or there are none. */
  lemma PointsStay(env: Env, s: State, x: Uuid, e: Entry)
    requires Inv(env, s) && x in s.tables
    requires e.row.owner == s.tables[x].row.owner
    requires SameChunks(e.chunks, s.tables[x].chunks) || NoPoints(s.points, x)
    ensures forall id | id in s.points && id.document == x :: PointOk(env, s.tables[x := e], id, s.points[id])
  {
    forall id | id in s.points && id.document == x
      ensures PointOk(env, s.tables[x := e], id, s.points[id])
    {
      assert PointOk(env, s.tables, id, s.points[id]);
    }
  }

  /** A delivery that holds a claim is the only one that does. */
  lemma HolderIsAlone(env: Env, s: State, w: nat)
    requires Inv(env, s) && w in s.deliveries && Holds(s.deliveries[w].pc)
    ensures NoOtherHolder(s, s.deliveries[w].job.document.parsed.value, w)
  {
  }

  /** A document at rest is held by nobody. */
  lemma RestingIsFree(env: Env, s: State, x: Uuid, w: nat)
    requires Inv(env, s) && x in s.tables
    requires s.tables[x].row.status != Processing && s.tables[x].row.status != Failed
    ensures NoOtherHolder(s, x, w)
    ensures w in s.deliveries && On(s.deliveries[w], x) ==> !Holds(s.deliveries[w].pc)
  {
  }

  /** Only the program counter moves, and it claims nothing new. */
  lemma OnlyPc(env: Env, s: State, w: nat, d: Delivery)
    requires Inv(env, s) && w in s.deliveries
    requires d.job == s.deliveries[w].job && DeliveryOk(env, s, d)
    requires Holds(d.pc) ==> Holds(s.deliveries[w].pc)
    ensures Inv(env, s.(deliveries := s.deliveries[w := d]))
  {
    var r := s.(deliveries := s.deliveries[w := d]);
    forall v | v in r.deliveries
      ensures DeliveryOk(env, r, r.deliveries[v])
    {
      if v != w {
        assert DeliveryOk(env, s, s.deliveries[v]);
      }
      assert CarriedFree(env, s, r, r.deliveries[v]);
    }
  }

  /** A delivery's own condition reads no other delivery. */
  ghost predicate CarriedFree(env: Env, s: State, r: State, d: Delivery) {
    s.tables == r.tables && s.points == r.points && s.now == r.now ==> (DeliveryOk(env, s, d) <==> DeliveryOk(env, r, d))
  }
}
