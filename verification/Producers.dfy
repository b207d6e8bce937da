/** The two producers of jobs, the upload and the recovery sweep, as events of the pipeline. */
module Producers {
  import opened Identifiers
  import opened Tables
  import opened Pipeline
  import opened PipelineInvariant
  import opened PipelineSafety
  import opened PipelineTheorems
  import opened PipelineAlone
  import opened DeliveryTheorems
  import opened Uploads
  import opened Recovery

  lemma OneMore(env: Env, events: seq<Event>, s: State, e: Event)
    requires Reached(env, events, s) && AlikeJob(env, e)
    ensures Reached(env, events + [e], Apply(env, s, e))
  {
    hide Apply;
    var more := events + [e];
    assert more[..|more| - 1] == events && more[|more| - 1] == e;
  }

  /** The state after a job is delivered and has been let in. */
  function Started(env: Env, s: State, w: nat, job: Job, config: Config, finalAttempt: bool): State {
    Apply(env, Apply(env, s, Deliver(w, job, config, finalAttempt)), Step(w, Succeeds))
  }

  lemma StartsIfAdmitted(env: Env, s: State, w: nat, job: Job, config: Config, finalAttempt: bool, stage: Stage)
    requires w !in s.deliveries && Admission(s.tables, job) == Claiming(stage)
    ensures var r := Started(env, s, w, job, config, finalAttempt);
            && w in r.deliveries && r.deliveries[w].pc == Claiming(stage)
            && r.tables == s.tables && r.points == s.points
  {
    hide Admission, StorageKeyFor, Owned;
  }

  /**
   The row and the job an upload makes are the pipeline's own `Upload` and `Deliver`: from any reached state
   the run goes on with them, and the delivery goes on to claim the parsing stage.
   */
  lemma UploadEntersThePipeline(env: Env, events: seq<Event>, s: State, x: Uuid, owner: Uuid, upload: ValidatedUpload,
                                w: nat, config: Config, finalAttempt: bool)
    requires Reached(env, events, s) && x !in s.tables && w !in s.deliveries
    requires env.spelling(x) == 0
    requires UniqueContent(s.tables) && NoLiveContent(s.tables, Sha256(upload.digest), Canonical(owner))
    ensures var row, job := NewDocument(owner, upload, s.now), JobFor(x, owner, upload);
            var uploaded := Apply(env, s, Upload(x, row));
            var r := Started(env, uploaded, w, job, config, finalAttempt);
            && uploaded.tables == WithRow(s.tables, x, owner, upload, s.now)
            && Reached(env, events + [Upload(x, row)] + [Deliver(w, job, config, finalAttempt)] + [Step(w, Succeeds)], r)
            && w in r.deliveries && r.deliveries[w].pc == Claiming(ParseStage) && r.tables == uploaded.tables
  {
    hide Run, Admission, UniqueContent, NoLiveContent, LiveRows, StepDelivery;
    var row, job := NewDocument(owner, upload, s.now), JobFor(x, owner, upload);
    DuplicateIff(s.tables, x, row);
    NewRowIsLive(s.tables, x, row);
    var uploaded := Apply(env, s, Upload(x, row));
    OneMore(env, events, s, Upload(x, row));
    EntersAndStarts(env, events + [Upload(x, row)], uploaded, w, job, config, finalAttempt, ParseStage);
  }

  lemma EntersAndStarts(env: Env, events: seq<Event>, s: State, w: nat, job: Job, config: Config, finalAttempt: bool, stage: Stage)
    requires Reached(env, events, s) && SpellsAlike(env, job)
    requires w !in s.deliveries && Admission(s.tables, job) == Claiming(stage)
    ensures var r := Started(env, s, w, job, config, finalAttempt);
            && Reached(env, events + [Deliver(w, job, config, finalAttempt)] + [Step(w, Succeeds)], r)
            && w in r.deliveries && r.deliveries[w].pc == Claiming(stage)
            && r.tables == s.tables && r.points == s.points
  {
    hide Run, Admission, StepDelivery, Reached;
    StartsIfAdmitted(env, s, w, job, config, finalAttempt, stage);
    var deliver := Deliver(w, job, config, finalAttempt);
    OneMore(env, events, s, deliver);
    OneMore(env, events + [deliver], Apply(env, s, deliver), Step(w, Succeeds));
  }

  /** A job the sweep makes takes its document on to the stage it is waiting for. */
  lemma RecoveryEntersThePipeline(env: Env, events: seq<Event>, s: State, x: Uuid, w: nat, config: Config, finalAttempt: bool)
    requires Reached(env, events, s) && w !in s.deliveries && env.spelling(x) == 0
    requires Candidate(s.tables, RECOVERABLE_STATUSES, x) && MakesJob(s.tables, x)
    ensures var job := JobFromRow(x, s.tables[x].row).value;
            var r := Started(env, s, w, job, config, finalAttempt);
            && Reached(env, events + [Deliver(w, job, config, finalAttempt)] + [Step(w, Succeeds)], r)
            && w in r.deliveries && r.deliveries[w].pc == Claiming(NextStage(s.tables[x].row.status))
            && r.tables == s.tables && r.points == s.points
  {
    hide Reached, JobFromRow, Started, Admission;
    RecoveredJobIsAdmitted(s.tables, x);
    EntersAndStarts(env, events, s, w, JobFromRow(x, s.tables[x].row).value, config, finalAttempt,
                    NextStage(s.tables[x].row.status));
  }

  // --- from uploaded bytes to a ready document ------------------------------------------------

  /** The bytes uploaded can be processed: as many pages as were counted, within the limit, some text, some chunk. */
  predicate Readable(env: Env, c: UploadCall, config: Config) {
    var pages := env.extract(Sha256(c.upload.digest));
    && |pages| == c.upload.pageCount <= config.maxPages
    && (exists i | 0 <= i < |pages| :: pages[i].blocks != [])
    && env.chunk(config.version, pages) != []
  }

  /** The upload's event leaves the pipeline the tables the upload leaves. */
  lemma UploadIsTheEvent(env: Env, s: State, c: UploadCall, stores: Stores)
    requires stores.tables == s.tables && UniqueContent(s.tables) && c.document !in s.tables && c.now == s.now
    requires c.overlap == NoOverlap && Canonical(c.document) !in stores.jobs && Addressed(stores.blobs)
    requires Ending(stores, c).answer.Created?
    ensures var after, x := Ending(stores, c).stores, c.document;
            && IsTheUpload(after, c)
            && Apply(env, s, Upload(x, after.tables[x].row)) == s.(tables := after.tables)
  {
    hide UniqueContent, Ending, Addressed;
    StartsAtItself(stores, c);
    CreatedIs(stores, c);
    UploadIsLawful(stores, c);
    var after, x := Ending(stores, c).stores, c.document;
    var row := after.tables[x].row;
    assert after.tables[x] == Entry(row, [], []);
    assert after.tables == s.tables[x := Entry(row, [], [])];
  }

  lemma StartsAtItself(s: Stores, c: UploadCall)
    requires c.overlap == NoOverlap
    ensures AtInsert(s, c).tables == s.tables && AtInsert(s, c).jobs == s.jobs
  {
    PutIs(s, c);
  }

  /**
   End to end. From any reached state, an upload that succeeds, of bytes that can be read, and one delivery of
   the job it queued that meets no fault: the document is the uploader's, ready, with the pages its bytes
   extract to, their chunks and exactly their points.
   */
  lemma UploadBecomesReady(env: Env, events: seq<Event>, s: State, c: UploadCall, stores: Stores, w: nat, config: Config,
                           finalAttempt: bool) returns (ran: seq<Event>)
    requires Reached(env, events, s) && w !in s.deliveries && env.spelling(c.document) == 0
    requires stores.tables == s.tables && c.document !in s.tables && c.now == s.now && c.overlap == NoOverlap
    requires Canonical(c.document) !in stores.jobs && Addressed(stores.blobs)
    requires Ending(stores, c).answer.Created?
    requires Readable(env, c, config)
    ensures var after, x := Ending(stores, c).stores, c.document;
            && IsTheUpload(after, c)
            && ran == [Upload(x, after.tables[x].row), Deliver(w, after.jobs[Canonical(x)], config, finalAttempt)]
                      + StepsOf(w, Successes(20))
    ensures var r, x := Run(env, Empty, events + ran), c.document;
            && Reached(env, events + ran, r)
            && x in r.tables && r.tables[x].row.status == Ready && r.tables[x].row.owner == c.owner
            && !r.tables[x].row.deleted
            && r.tables[x].pages == env.extract(Sha256(c.upload.digest))
            && r.tables[x].chunks == FinalChunks(env, Sha256(c.upload.digest), config)
            && ExactlyIndexed(env, x, c.owner, r.tables[x].chunks, config.embedding, r.points)
  {
    hide Inv, Run, Ending, ExactlyIndexed, FinalChunks, Alone, GoodEnv, UniqueContent, Addressed, Fresh, Sound, Agreed;
    var x := c.document;
    ReachedInv(env, events, s);
    ContentIsUnique(env, s);
    UploadIsTheEvent(env, s, c, stores);
    var after := Ending(stores, c).stores;
    var row, job := after.tables[x].row, after.jobs[Canonical(x)];
    var uploaded := s.(tables := after.tables);
    var upload, deliver := Upload(x, row), Deliver(w, job, config, finalAttempt);
    OneMore(env, events, s, upload);
    var begun := Apply(env, uploaded, deliver);
    OneMore(env, events + [upload], uploaded, deliver);
    var before := events + [upload] + [deliver];
    JustUploaded(env, begun, w, c, config);
    SuccessfulDeliveryConverges(env, before, begun, w);
    AloneIsARun(env, begun, w, Successes(20));
    RunGoesOn(env, Empty, before, StepsOf(w, Successes(20)));
    ran := [upload, deliver] + StepsOf(w, Successes(20));
    assert events + ran == before + StepsOf(w, Successes(20));
    StillTheOwners(env, Run(env, Empty, events + ran), begun.deliveries[w].job, c);
  }

  lemma StillTheOwners(env: Env, s: State, job: Job, c: UploadCall)
    requires Agreed(s.tables, job) && job.document == Canonical(c.document) && job.owner == Canonical(c.owner)
    ensures c.document in s.tables && s.tables[c.document].row.owner == c.owner && !s.tables[c.document].row.deleted
  {
  }

  lemma ContentIsUnique(env: Env, s: State)
    requires Inv(env, s)
    ensures UniqueContent(s.tables)
  {
  }

  /** The delivery of an upload's own job starts fresh, and its document is sound. */
  lemma JustUploaded(env: Env, s: State, w: nat, c: UploadCall, config: Config)
    requires w in s.deliveries && c.document in s.tables && Readable(env, c, config)
    requires IsTheUpload(Stores(s.tables, map[], map[Canonical(c.document) := s.deliveries[w].job]), c)
    requires s.deliveries[w].pc == Begin && s.deliveries[w].config == config
    ensures var job := s.deliveries[w].job;
            && job.document == Canonical(c.document) && job.owner == Canonical(c.owner)
            && job.contentHash == Sha256(c.upload.digest)
    ensures Fresh(s, w) && Sound(env, s.deliveries[w], s.tables[c.document].row)
    ensures s.tables[c.document].row.status == Pending
  {
  }
}
