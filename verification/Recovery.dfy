/** The recovery sweep: a job for each document a stage could take further but no job will. */
module Recovery {
  import opened Identifiers
  import opened Tables
  import opened Pipeline

  const RECOVERABLE_STATUSES: set<Status> := {Pending, Parsed, Chunked}

  // --- list_for_recovery -----------------------------------------------------------

  predicate Candidate(t: Tables, statuses: set<Status>, x: Uuid) {
    && x in t && !t[x].row.deleted && t[x].row.status in statuses
    && t[x].row.storageKey.Some? && t[x].row.contentHash.Some? && t[x].row.mimeType.Some?
  }

  /** Oldest first; of the same age, by id. */
  predicate Sooner(t: Tables, x: Uuid, y: Uuid) {
    && x in t && y in t
    && (t[x].row.updatedAt < t[y].row.updatedAt || (t[x].row.updatedAt == t[y].row.updatedAt && x < y))
  }

  /**
   The `limit` oldest rows that are live, in one of the statuses and with every column a job needs, the longest
   untouched first, by id where they are of one age: none left out comes before one listed.
   */
  ghost predicate OldestCandidates(t: Tables, statuses: set<Status>, limit: nat, listed: seq<Uuid>) {
    && (forall x | x in listed ::
          && x in t && !t[x].row.deleted && t[x].row.status in statuses
          && t[x].row.storageKey.Some? && t[x].row.contentHash.Some? && t[x].row.mimeType.Some?)
    && (forall i, j | 0 <= i < j < |listed| ::
          var a, b := t[listed[i]].row.updatedAt, t[listed[j]].row.updatedAt;
          a < b || (a == b && listed[i] < listed[j]))
    && |listed| <= limit
    && (forall x | x in t && !t[x].row.deleted && t[x].row.status in statuses && x !in listed
                   && t[x].row.storageKey.Some? && t[x].row.contentHash.Some? && t[x].row.mimeType.Some? ::
          && |listed| == limit
          && forall y | y in listed ::
               t[y].row.updatedAt < t[x].row.updatedAt || (t[y].row.updatedAt == t[x].row.updatedAt && y < x))
  }

  lemma {:induction false} SomeSoonest(t: Tables, xs: set<Uuid>) returns (x: Uuid)
    requires xs != {} && xs <= t.Keys
    ensures x in xs && forall y | y in xs && y != x :: Sooner(t, x, y)
    decreases |xs|
  {
    var z :| z in xs;
    var rest := xs - {z};
    x := z;
    if rest != {} {
      var y := SomeSoonest(t, rest);
      x := if Sooner(t, z, y) then z else y;
      forall other | other in xs && other != x
        ensures Sooner(t, x, other)
      {
        if other != z && other != y {
          assert Sooner(t, y, other);
        }
      }
    }
  }

  /** `list_for_recovery`; None where it refuses a claimed status. */
  method ListForRecovery(t: Tables, statuses: set<Status>, limit: nat) returns (listed: Option<seq<Uuid>>)
    ensures listed.None? <==> Processing in statuses
    ensures listed.Some? ==> OldestCandidates(t, statuses, limit, listed.value)
  {
    if Processing in statuses {
      return None;
    }
    var rest := set x | x in t && Candidate(t, statuses, x);
    var oldest: seq<Uuid> := [];
    while rest != {} && |oldest| < limit
      invariant rest <= t.Keys
      invariant forall x :: Candidate(t, statuses, x) <==> x in rest || x in oldest
      invariant forall x | x in oldest :: x in t
      invariant forall i, j | 0 <= i < j < |oldest| :: Sooner(t, oldest[i], oldest[j])
      invariant forall x, y | x in oldest && y in rest :: Sooner(t, x, y)
      invariant |oldest| <= limit
      decreases |rest|
    {
      ghost var soonest := SomeSoonest(t, rest);
      var x :| x in rest && forall y | y in rest && y != x :: Sooner(t, x, y);
      oldest := oldest + [x];
      rest := rest - {x};
    }
    listed := Some(oldest);
    TheseAreOldest(t, statuses, limit, rest, oldest);
  }

  lemma TheseAreOldest(t: Tables, statuses: set<Status>, limit: nat, rest: set<Uuid>, listed: seq<Uuid>)
    requires forall x :: Candidate(t, statuses, x) <==> x in rest || x in listed
    requires forall i, j | 0 <= i < j < |listed| :: Sooner(t, listed[i], listed[j])
    requires forall x, y | x in listed && y in rest :: Sooner(t, x, y)
    requires |listed| <= limit && (rest == {} || |listed| == limit)
    ensures OldestCandidates(t, statuses, limit, listed)
  {
    forall x | x in listed
      ensures Candidate(t, statuses, x)
    {
    }
    forall i, j | 0 <= i < j < |listed|
      ensures Sooner(t, listed[i], listed[j])
    {
    }
    forall x | x in t && !t[x].row.deleted && t[x].row.status in statuses && x !in listed
               && t[x].row.storageKey.Some? && t[x].row.contentHash.Some? && t[x].row.mimeType.Some?
      ensures |listed| == limit && forall y | y in listed :: Sooner(t, y, x)
    {
      assert Candidate(t, statuses, x);
    }
  }

  // --- _job_from_row ------------------------------------------------------------------

  /** `_job_from_row`: None if the row cannot make a job. */
  function JobFromRow(document: Uuid, row: Document): Option<Job> {
    if row.storageKey.None? || row.contentHash.None? || row.mimeType.None? then None
    else if StorageKeyFor(Canonical(row.owner), row.contentHash.value) != row.storageKey then None
    else Some(Job(Canonical(document), Canonical(row.owner), row.storageKey.value, row.contentHash.value,
                  row.mimeType.value))
  }

  predicate MakesJob(t: Tables, x: Uuid) {
    x in t && JobFromRow(x, t[x].row).Some?
  }

  /** The stage a document at rest goes on with. */
  function NextStage(status: Status): Stage {
    if status == Pending then ParseStage else if status == Parsed then ChunkStage else EmbedStage
  }

  /**
   A recovered job passes every check of `ingest` and starts the stage its document is waiting for. A row
   that makes no job is one for which no job passes them: skipping it loses nothing.
   */
  lemma RecoveredJobIsAdmitted(t: Tables, x: Uuid)
    requires Candidate(t, RECOVERABLE_STATUSES, x)
    ensures var made := JobFromRow(x, t[x].row);
            && (made.Some? ==>
                  && made.value.document == Canonical(x)
                  && Admission(t, made.value) == Claiming(NextStage(t[x].row.status))
                  && StartsAt(NextStage(t[x].row.status)) == t[x].row.status)
            && (made.None? ==> forall job: Job | job.document.parsed == Some(x) :: !Admission(t, job).Claiming?)
  {
    var row := t[x].row;
    if JobFromRow(x, row).None? {
      forall job: Job | job.document.parsed == Some(x)
        ensures !Admission(t, job).Claiming?
      {
        if JobDisagreesWith(job, row) == None {
          assert StorageKeyFor(job.owner, job.contentHash) == StorageKeyFor(Canonical(row.owner), row.contentHash.value);
        }
      }
    }
  }

  /** The statuses the sweep looks for are those the stages start from, which a failed attempt goes back to. */
  lemma EveryStageIsRecoverable(status: Status)
    ensures status in RECOVERABLE_STATUSES <==> exists stage :: StartsAt(stage) == status
    ensures status in RECOVERABLE_STATUSES <==> status == Pending || status == Parsed || status == Chunked
  {
    assert StartsAt(ParseStage) == Pending && StartsAt(ChunkStage) == Parsed && StartsAt(EmbedStage) == Chunked;
  }

  // --- recover_pending ------------------------------------------------------------------

  /** A queue that fails may have taken the job all the same. */
  datatype EnqueueFault = Enqueues | EnqueueFails(queued: bool)

  /** The queue: at most one job a document, under the document's own id. */
  class IngestionQueue {
    var jobs: map<RawId<Uuid>, Job>

    constructor (jobs: map<RawId<Uuid>, Job>)
      ensures this.jobs == jobs
    {
      this.jobs := jobs;
    }

    /** `enqueue`, which says whether the queue had no job of this document yet; None where it raises. */
    method Enqueue(job: Job, fault: EnqueueFault) returns (queued: Option<bool>)
      modifies this
      ensures queued.None? <==> fault.EnqueueFails?
      ensures queued.Some? ==> queued.value == (job.document !in old(jobs))
      ensures jobs == if job.document !in old(jobs) && (fault.Enqueues? || fault.queued)
                      then old(jobs)[job.document := job] else old(jobs)
    {
      var isNew := job.document !in jobs;
      if isNew && (fault.Enqueues? || fault.queued) {
        jobs := jobs[job.document := job];
      }
      queued := if fault.Enqueues? then Some(isNew) else None;
    }
  }

  datatype RecoveryResult = RecoveryResult(requeued: seq<Uuid>, alreadyQueued: nat, skipped: nat)

  predicate IsOneOf(d: RawId<Uuid>, xs: seq<Uuid>) {
    d.spelling == 0 && d.parsed.Some? && d.parsed.value in xs
  }

  /** What the pass has done about `x`: queued its row's job, or found one queued, or could make none. */
  ghost predicate Handled(t: Tables, before: map<RawId<Uuid>, Job>, after: map<RawId<Uuid>, Job>, requeued: seq<Uuid>,
                          x: Uuid)
  {
    && x in t
    && var made := JobFromRow(x, t[x].row);
    && (x in requeued <==> made.Some? && Canonical(x) !in before)
    && (x in requeued ==> Canonical(x) in after && after[Canonical(x)] == made.value)
    && (made.Some? ==> Canonical(x) in after)
  }

  /** The listed rows that can make no job, and those that can and had one queued before. */
  function Unmakeable(t: Tables, listed: seq<Uuid>): set<Uuid> {
    set x | x in listed && !MakesJob(t, x)
  }

  function FoundQueued(t: Tables, jobs: map<RawId<Uuid>, Job>, listed: seq<Uuid>): set<Uuid> {
    set x | x in listed && MakesJob(t, x) && Canonical(x) in jobs
  }

  /**
   `recover_pending`, one pass over the oldest `limit` documents, where the queue does `faults(i)` with the
   job of the `i`th. Every document the pass comes to ends with a job in the queue unless its row can make
   none; nothing else is queued, and no queued job is replaced. The pass comes to all of them, unless the
   queue raises: then it ends there, with no result, and the rest are as they were.
   */
  method RecoverPending(t: Tables, queue: IngestionQueue, limit: nat, faults: nat -> EnqueueFault)
    returns (result: Option<RecoveryResult>, listed: seq<Uuid>, requeued: seq<Uuid>, done: nat)
    modifies queue
    ensures OldestCandidates(t, RECOVERABLE_STATUSES, limit, listed)
    ensures done <= |listed| && (result.Some? <==> done == |listed|)
    ensures forall i | 0 <= i < done :: MakesJob(t, listed[i]) ==> faults(i).Enqueues?
    ensures done < |listed| ==> MakesJob(t, listed[done]) && faults(done).EnqueueFails?
    ensures forall i | 0 <= i < done :: Handled(t, old(queue.jobs), queue.jobs, requeued, listed[i])
    ensures forall x | x in requeued :: x in listed[..done]
    ensures forall d | d in old(queue.jobs) :: d in queue.jobs && queue.jobs[d] == old(queue.jobs)[d]
    ensures forall d | d in queue.jobs && d !in old(queue.jobs) ::
              IsOneOf(d, requeued) || (done < |listed| && d == Canonical(listed[done]) && faults(done).queued)
    ensures result.Some? ==>
              && result.value.requeued == requeued
              && result.value.skipped == |Unmakeable(t, listed)|
              && result.value.alreadyQueued == |FoundQueued(t, old(queue.jobs), listed)|
              && |requeued| + result.value.alreadyQueued + result.value.skipped == |listed|
  {
    hide JobFromRow, Unmakeable, FoundQueued, OldestCandidates, Handled;
    NothingCounted(t, queue.jobs);
    var candidates := ListForRecovery(t, RECOVERABLE_STATUSES, limit);
    listed := candidates.value;
    requeued, done := [], 0;
    assert listed[..0] == [];
    var alreadyQueued, skipped := 0, 0;
    while done < |listed|
      invariant done <= |listed|
      invariant |requeued| + alreadyQueued + skipped == done
      invariant skipped == |Unmakeable(t, listed[..done])|
      invariant alreadyQueued == |FoundQueued(t, old(queue.jobs), listed[..done])|
      invariant forall i | 0 <= i < done :: MakesJob(t, listed[i]) ==> faults(i).Enqueues?
      invariant Swept(t, old(queue.jobs), queue.jobs, requeued, listed, done)
    {
      var x := listed[done];
      ListedOnce(t, RECOVERABLE_STATUSES, limit, listed, done);
      var job := JobFromRow(x, t[x].row);
      CountsOneMore(t, old(queue.jobs), listed, done);
      SweepsOneMore(t, old(queue.jobs), queue.jobs, requeued, listed, done);
      if job.None? {
        skipped := skipped + 1;
      } else {
        ghost var before := queue.jobs;
        var queued := queue.Enqueue(job.value, faults(done));
        if queued.None? {
          StillHandled(t, old(queue.jobs), before, queue.jobs, requeued, listed, done);
          return None, listed, requeued, done;
        } else if queued.value {
          requeued := requeued + [x];
        } else {
          alreadyQueued := alreadyQueued + 1;
        }
      }
      done := done + 1;
    }
    assert listed[..|listed|] == listed;
    result := Some(RecoveryResult(requeued, alreadyQueued, skipped));
  }

  lemma ListedOnce(t: Tables, statuses: set<Status>, limit: nat, listed: seq<Uuid>, n: nat)
    requires OldestCandidates(t, statuses, limit, listed) && n < |listed|
    ensures listed[n] in t && listed[n] !in listed[..n]
  {
  }

  lemma NothingCounted(t: Tables, jobs: map<RawId<Uuid>, Job>)
    ensures Unmakeable(t, []) == {} && FoundQueued(t, jobs, []) == {}
  {
  }

  lemma CountsOneMore(t: Tables, jobs: map<RawId<Uuid>, Job>, listed: seq<Uuid>, n: nat)
    requires n < |listed| && listed[n] !in listed[..n]
    ensures |Unmakeable(t, listed[..n + 1])|
            == |Unmakeable(t, listed[..n])| + if MakesJob(t, listed[n]) then 0 else 1
    ensures |FoundQueued(t, jobs, listed[..n + 1])|
            == |FoundQueued(t, jobs, listed[..n])| + if MakesJob(t, listed[n]) && Canonical(listed[n]) in jobs then 1 else 0
  {
    hide MakesJob;
    var front, x := listed[..n], listed[n];
    assert listed[..n + 1] == front + [x];
    if MakesJob(t, x) {
      assert Unmakeable(t, front + [x]) == Unmakeable(t, front);
    } else {
      assert Unmakeable(t, front + [x]) == Unmakeable(t, front) + {x};
    }
    if MakesJob(t, x) && Canonical(x) in jobs {
      assert FoundQueued(t, jobs, front + [x]) == FoundQueued(t, jobs, front) + {x};
    } else {
      assert FoundQueued(t, jobs, front + [x]) == FoundQueued(t, jobs, front);
    }
  }

  /** What a pass has done once it has come through the first `done` documents. */
  ghost predicate Swept(t: Tables, before: map<RawId<Uuid>, Job>, after: map<RawId<Uuid>, Job>, requeued: seq<Uuid>,
                        listed: seq<Uuid>, done: nat)
    requires done <= |listed|
  {
    && (forall x | x in requeued :: x in listed[..done])
    && (forall d | d in before :: d in after && after[d] == before[d])
    && (forall d | d in after && d !in before :: IsOneOf(d, requeued))
    && (forall k | 0 <= k < done :: Handled(t, before, after, requeued, listed[k]))
  }

  lemma StillHandled(t: Tables, before: map<RawId<Uuid>, Job>, after: map<RawId<Uuid>, Job>, more: map<RawId<Uuid>, Job>,
                     requeued: seq<Uuid>, listed: seq<Uuid>, done: nat)
    requires done <= |listed| && Swept(t, before, after, requeued, listed, done)
    requires forall d | d in after :: d in more && more[d] == after[d]
    ensures forall k | 0 <= k < done :: Handled(t, before, more, requeued, listed[k])
  {
    hide JobFromRow;
  }

  /** The next document is passed over if its row makes no job, and has one queued otherwise. */
  lemma SweepsOneMore(t: Tables, before: map<RawId<Uuid>, Job>, after: map<RawId<Uuid>, Job>, requeued: seq<Uuid>,
                      listed: seq<Uuid>, done: nat)
    requires done < |listed| && Swept(t, before, after, requeued, listed, done)
    requires listed[done] in t && listed[done] !in listed[..done]
    ensures var x, made := listed[done], JobFromRow(listed[done], t[listed[done]].row);
            && (Canonical(x) in after <==> Canonical(x) in before)
            && (made.None? ==> Swept(t, before, after, requeued, listed, done + 1))
            && (made.Some? ==>
                  && made.value.document == Canonical(x)
                  && (Canonical(x) in after ==> Swept(t, before, after, requeued, listed, done + 1))
                  && (Canonical(x) !in after ==>
                        Swept(t, before, after[Canonical(x) := made.value], requeued + [x], listed, done + 1)))
  {
    hide JobFromRow;
    JobIsFor(listed[done], t[listed[done]].row);
    assert listed[..done + 1] == listed[..done] + [listed[done]];
  }

  lemma JobIsFor(x: Uuid, row: Document)
    ensures JobFromRow(x, row).Some? ==> JobFromRow(x, row).value.document == Canonical(x)
  {
  }
}
