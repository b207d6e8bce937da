/**
 One upload, from the check for a duplicate to the removal of its file.

 The tables, the files and the queue share no transaction, and other uploads, deletes and workers act on all
 three between any two calls. So an upload is a function of the stores it starts from, of which of its calls
 fail, and of what others have made of the stores by each of its calls.
 */
module Uploads {
  import opened Identifiers
  import opened Tables
  import opened Pipeline
  import opened Repositories
  import opened Recovery

  /** The files under the storage root; a file is known by its content's hash. */
  type Blobs = map<StorageKey, Hash>

  datatype Stores = Stores(tables: Tables, blobs: Blobs, jobs: map<RawId<Uuid>, Job>)

  /** What validation makes of an upload's bytes. */
  datatype ValidatedUpload = ValidatedUpload(digest: nat, pageCount: nat)

  /** A put that fails may have stored the file all the same. */
  datatype PutFault = Puts | PutFails(stored: bool)

  /** Which of the calls of one upload fail. The last two are calls that undo. */
  datatype Faults = Faults(put: PutFault, insert: bool, enqueue: EnqueueFault, undo: bool, discard: bool)

  const NoFaults: Faults := Faults(Puts, false, Enqueues, false, false)

  /** What others have made of the stores by each call, if they have acted since the call before it. */
  datatype Overlap = Overlap(put: Option<Stores>, insert: Option<Stores>, lookup: Option<Stores>,
                             enqueue: Option<Stores>, undo: Option<Stores>, discard: Option<Stores>)

  const NoOverlap: Overlap := Overlap(None, None, None, None, None, None)

  function Found(overlap: Option<Stores>, left: Stores): Stores {
    if overlap.Some? then overlap.value else left
  }

  /** One upload: the id its row gets, whose it is, what is uploaded, when, and what happens around it. */
  datatype UploadCall = UploadCall(document: Uuid, owner: Uuid, upload: ValidatedUpload, now: nat, faults: Faults,
                                   overlap: Overlap)

  function KeyOf(c: UploadCall): StorageKey {
    Key(c.owner, c.upload.digest)
  }

  datatype UploadAnswer =
    | Existing(document: Uuid)
    | Created(document: Uuid)
    | UploadRejected
    | StorageError
    | UploadPersistenceFailed
    | IngestionUnavailable

  predicate IsError(answer: UploadAnswer) {
    !answer.Existing? && !answer.Created?
  }

  // --- rows and files -----------------------------------------------------------------------

  function LiveRows(t: Tables): Tables {
    map x | x in t && !t[x].row.deleted :: t[x]
  }

  /** The row's file is stored, at the key its owner and content derive to, with that content. */
  predicate HasItsBlob(row: Document, blobs: Blobs) {
    && row.contentHash.Some?
    && StorageKeyFor(Canonical(row.owner), row.contentHash.value) == row.storageKey
    && row.storageKey.Some? && row.storageKey.value in blobs
    && blobs[row.storageKey.value] == row.contentHash.value
  }

  /** Every file is what its key says. */
  predicate Addressed(blobs: Blobs) {
    forall key | key in blobs && key.Key? :: blobs[key] == Sha256(key.digest)
  }

  predicate AllHaveBlobs(t: Tables, blobs: Blobs) {
    forall x | x in t && !t[x].row.deleted && t[x].row.storageKey.Some? :: HasItsBlob(t[x].row, blobs)
  }

  /** One live row an owner and content, and every live row's file is stored where the row says. */
  predicate Consistent(s: Stores) {
    UniqueContent(s.tables) && Addressed(s.blobs) && AllHaveBlobs(s.tables, s.blobs)
  }

  /** A live row is stored at this key. */
  predicate StoredAt(t: Tables, key: StorageKey) {
    exists x :: x in t && !t[x].row.deleted && t[x].row.storageKey == Some(key)
  }

  ghost predicate NoLiveContent(t: Tables, hash: Hash, user: RawId<Uuid>) {
    forall x :: !HasLiveContent(t, x, hash, user)
  }

  /** No live document of the uploader has the content. */
  ghost predicate IsNew(t: Tables, c: UploadCall) {
    NoLiveContent(t, Sha256(c.upload.digest), Canonical(c.owner))
  }

  /** The uploader's live document with the content, if there is one. */
  ghost function Live(t: Tables, c: UploadCall): (found: Option<Uuid>)
    ensures found.None? <==> IsNew(t, c)
    ensures found.Some? ==> HasLiveContent(t, found.value, Sha256(c.upload.digest), Canonical(c.owner))
  {
    if IsNew(t, c) then None
    else
      var x: Uuid :| HasLiveContent(t, x, Sha256(c.upload.digest), Canonical(c.owner));
      Some(x)
  }

  lemma OneIsLive(t: Tables, c: UploadCall, x: Uuid)
    requires UniqueContent(t) && HasLiveContent(t, x, Sha256(c.upload.digest), Canonical(c.owner))
    ensures Live(t, c) == Some(x)
  {
  }

  /** The files once this upload's is stored, if it was not yet. */
  function WithFile(blobs: Blobs, key: StorageKey, hash: Hash): Blobs {
    if key in blobs then blobs else blobs[key := hash]
  }

  function NewDocument(owner: Uuid, upload: ValidatedUpload, now: nat): Document {
    Document(owner, Pending, None, 0, Some(Key(owner, upload.digest)), Some(Sha256(upload.digest)), Some(Pdf),
             Some(upload.pageCount), now, false)
  }

  function JobFor(x: Uuid, owner: Uuid, upload: ValidatedUpload): Job {
    Job(Canonical(x), Canonical(owner), Key(owner, upload.digest), Sha256(upload.digest), Pdf)
  }

  /** The tables with the row of this upload. */
  function WithRow(t: Tables, x: Uuid, owner: Uuid, upload: ValidatedUpload, now: nat): Tables {
    t[x := Entry(NewDocument(owner, upload, now), [], [])]
  }

  function Queued(jobs: map<RawId<Uuid>, Job>, job: Job, fault: EnqueueFault): map<RawId<Uuid>, Job> {
    if job.document !in jobs && (fault.Enqueues? || fault.queued) then jobs[job.document := job] else jobs
  }

  // --- an upload, call by call --------------------------------------------------------------

  /** An upload that has ended, or has come to `_discard` with these stores. */
  datatype Course =
    | Ends(answer: UploadAnswer, stores: Stores)
    | Discards(answer: UploadAnswer, stores: Stores, createdBlob: bool)

  datatype UploadEnd = UploadEnd(answer: UploadAnswer, stores: Stores)

  /** `_undo_unqueued_upload`, as far as the file. */
  function Undoing(s: Stores, c: UploadCall, createdBlob: bool): Course {
    if c.faults.undo then Ends(IngestionUnavailable, s)
    else Discards(IngestionUnavailable, Undone(s, c), createdBlob)
  }

  function Undone(s: Stores, c: UploadCall): Stores {
    s.(tables := SoftDelete(s.tables, c.now, Canonical(c.document), Canonical(c.owner)).0)
  }

  /** From the enqueue on. */
  function Queueing(s: Stores, c: UploadCall, createdBlob: bool): Course {
    var queued := s.(jobs := Queued(s.jobs, JobFor(c.document, c.owner, c.upload), c.faults.enqueue));
    if c.faults.enqueue.Enqueues? then Ends(Created(c.document), queued)
    else Undoing(Found(c.overlap.undo, queued), c, createdBlob)
  }

  function Inserted(s: Stores, c: UploadCall): Stores {
    s.(tables := WithRow(s.tables, c.document, c.owner, c.upload, c.now))
  }

  /** From where the index has refused the row. */
  ghost function Losing(s: Stores, c: UploadCall, createdBlob: bool): Course {
    var seen := Found(c.overlap.lookup, s);
    var winner := Live(seen.tables, c);
    if winner.Some? then Ends(Existing(winner.value), seen)
    else Discards(UploadPersistenceFailed, seen, createdBlob)
  }

  /** From the insert on. */
  ghost function Recording(s: Stores, c: UploadCall, createdBlob: bool): Course {
    if c.faults.insert then Discards(UploadPersistenceFailed, s, createdBlob)
    else if IsNew(s.tables, c) then Queueing(Found(c.overlap.enqueue, Inserted(s, c)), c, createdBlob)
    else Losing(s, c, createdBlob)
  }

  function Put(s: Stores, c: UploadCall): Stores {
    if c.faults.put.PutFails? && !c.faults.put.stored then s
    else s.(blobs := WithFile(s.blobs, KeyOf(c), Sha256(c.upload.digest)))
  }

  /** The whole upload, as far as the removal of the file. */
  ghost function Uploading(s: Stores, c: UploadCall): Course {
    var existing := Live(s.tables, c);
    if existing.Some? then Ends(Existing(existing.value), s)
    else
      var found := Found(c.overlap.put, s);
      if c.faults.put.PutFails? then Ends(StorageError, Put(found, c))
      else Recording(Found(c.overlap.insert, Put(found, c)), c, KeyOf(c) !in found.blobs)
  }

  /** `_discard`: only a file this upload created. */
  function Discarded(s: Stores, c: UploadCall, createdBlob: bool): Stores {
    if createdBlob && !c.faults.discard then s.(blobs := s.blobs - {KeyOf(c)}) else s
  }

  ghost function Finish(course: Course, c: UploadCall): UploadEnd {
    match course
    case Ends(answer, s) => UploadEnd(answer, s)
    case Discards(answer, s, created) => UploadEnd(answer, Discarded(Found(c.overlap.discard, s), c, created))
  }

  ghost function Ending(s: Stores, c: UploadCall): UploadEnd {
    Finish(Uploading(s, c), c)
  }

  // --- what each call finds -----------------------------------------------------------------

  /** The stores the row is inserted into. */
  function AtInsert(s: Stores, c: UploadCall): Stores {
    Found(c.overlap.insert, Put(Found(c.overlap.put, s), c))
  }

  /** The upload comes to insert its row. */
  ghost predicate ComesToInsert(s: Stores, c: UploadCall) {
    IsNew(s.tables, c) && c.faults.put.Puts?
  }

  /** The index takes the row. */
  ghost predicate Inserts(s: Stores, c: UploadCall) {
    ComesToInsert(s, c) && !c.faults.insert && IsNew(AtInsert(s, c).tables, c)
  }

  /** The stores the job is queued in. */
  function AtEnqueue(s: Stores, c: UploadCall): Stores {
    Found(c.overlap.enqueue, Inserted(AtInsert(s, c), c))
  }

  /** The stores the undoing starts from. */
  function AtUndo(s: Stores, c: UploadCall): Stores {
    var queued := AtEnqueue(s, c);
    Found(c.overlap.undo, queued.(jobs := Queued(queued.jobs, JobFor(c.document, c.owner, c.upload), c.faults.enqueue)))
  }

  /** The stores a winner of the insert is looked up in. */
  function AtLookup(s: Stores, c: UploadCall): Stores {
    Found(c.overlap.lookup, AtInsert(s, c))
  }

  /** An error follows the put, and whatever has to be undone first is undone. */
  ghost predicate ComesToDiscard(s: Stores, c: UploadCall) {
    && ComesToInsert(s, c)
    && (|| c.faults.insert
        || (!IsNew(AtInsert(s, c).tables, c) && IsNew(AtLookup(s, c).tables, c))
        || (IsNew(AtInsert(s, c).tables, c) && c.faults.enqueue.EnqueueFails? && !c.faults.undo))
  }

  /** The stores the file is removed from. */
  ghost function AtDiscard(s: Stores, c: UploadCall): Stores {
    Found(c.overlap.discard, if c.faults.insert then AtInsert(s, c)
                             else if IsNew(AtInsert(s, c).tables, c) then Undone(AtUndo(s, c), c)
                             else AtLookup(s, c))
  }

  // --- what others may do -------------------------------------------------------------------

  predicate StoresLawful(s: Stores) {
    UniqueContent(s.tables) && Addressed(s.blobs)
  }

  /** The index holds whatever others do, files are put under their own hash, and nobody else has the new id. */
  ghost predicate Lawful(c: UploadCall) {
    && (c.overlap.put.Some? ==> StoresLawful(c.overlap.put.value) && c.document !in c.overlap.put.value.tables)
    && (c.overlap.insert.Some? ==> StoresLawful(c.overlap.insert.value) && c.document !in c.overlap.insert.value.tables)
    && (c.overlap.lookup.Some? ==> StoresLawful(c.overlap.lookup.value))
    && (c.overlap.enqueue.Some? ==> StoresLawful(c.overlap.enqueue.value))
    && (c.overlap.undo.Some? ==> StoresLawful(c.overlap.undo.value))
    && (c.overlap.discard.Some? ==> StoresLawful(c.overlap.discard.value))
  }

  /** Others leave every live row its file. */
  predicate OthersKeepFiles(c: UploadCall) {
    && (c.overlap.put.Some? ==> Consistent(c.overlap.put.value))
    && (c.overlap.insert.Some? ==> Consistent(c.overlap.insert.value))
    && (c.overlap.lookup.Some? ==> Consistent(c.overlap.lookup.value))
    && (c.overlap.enqueue.Some? ==> Consistent(c.overlap.enqueue.value))
    && (c.overlap.undo.Some? ==> Consistent(c.overlap.undo.value))
    && (c.overlap.discard.Some? ==> Consistent(c.overlap.discard.value))
  }

  // --- one call at a time -------------------------------------------------------------------

  lemma PutKeeps(s: Stores, c: UploadCall)
    ensures Addressed(s.blobs) ==> Addressed(Put(s, c).blobs)
    ensures Consistent(s) ==> Consistent(Put(s, c))
    ensures c.faults.put.Puts? ==> KeyOf(c) in Put(s, c).blobs
  {
  }

  /** A file already there is left as it is. */
  lemma PutIs(s: Stores, c: UploadCall)
    ensures var r := Put(s, c);
            && r.tables == s.tables && r.jobs == s.jobs && r.blobs - {KeyOf(c)} == s.blobs - {KeyOf(c)}
            && (KeyOf(c) in s.blobs ==> r == s)
            && (KeyOf(c) !in s.blobs ==> r.blobs - {KeyOf(c)} == s.blobs)
            && (forall k | k in s.blobs :: k in r.blobs && r.blobs[k] == s.blobs[k])
            && (c.faults.put.Puts? ==> r.blobs == WithFile(s.blobs, KeyOf(c), Sha256(c.upload.digest)))
  {
  }

  /** The new row is live, and its job passes every check. */
  lemma NewRowIsLive(t: Tables, x: Uuid, row: Document)
    requires x !in t && row.status == Pending && !row.deleted && row.mimeType.Some?
    requires row.contentHash.Some? && row.storageKey.Some?
    requires StorageKeyFor(Canonical(row.owner), row.contentHash.value) == row.storageKey
    ensures var after := t[x := Entry(row, [], [])];
            && LiveRows(after) == LiveRows(t)[x := Entry(row, [], [])]
            && Admission(after, Job(Canonical(x), Canonical(row.owner), row.storageKey.value, row.contentHash.value,
                                    row.mimeType.value)) == Claiming(ParseStage)
  {
  }

  /** The index refuses a row exactly if a live row of the same owner has the same content. */
  lemma DuplicateIff(t: Tables, x: Uuid, row: Document)
    requires UniqueContent(t) && x !in t && row.contentHash.Some? && !row.deleted
    ensures UniqueContent(t[x := Entry(row, [], [])])
            <==> NoLiveContent(t, row.contentHash.value, Canonical(row.owner))
  {
    var after, user := t[x := Entry(row, [], [])], Canonical(row.owner);
    if NoLiveContent(t, row.contentHash.value, user) {
      forall a, b | a in after && b in after && a != b && !after[a].row.deleted && !after[b].row.deleted
                    && after[a].row.contentHash.Some?
        ensures after[a].row.owner != after[b].row.owner || after[a].row.contentHash != after[b].row.contentHash
      {
        assert !HasLiveContent(t, a, row.contentHash.value, user);
        assert !HasLiveContent(t, b, row.contentHash.value, user);
      }
    } else {
      var y: Uuid :| HasLiveContent(t, y, row.contentHash.value, user);
      assert after[y] == t[y] && after[x].row == row;
    }
  }

  /** A row inserted has its file exactly if the file is still there. */
  lemma InsertedKeepsIff(s: Stores, c: UploadCall)
    requires Consistent(s) && c.document !in s.tables && IsNew(s.tables, c)
    ensures UniqueContent(Inserted(s, c).tables)
    ensures Consistent(Inserted(s, c)) <==> KeyOf(c) in s.blobs
  {
    DuplicateIff(s.tables, c.document, NewDocument(c.owner, c.upload, c.now));
    var t := Inserted(s, c).tables;
    assert t[c.document].row.storageKey == Some(KeyOf(c));
    if KeyOf(c) in s.blobs {
      forall x | x in t && !t[x].row.deleted && t[x].row.storageKey.Some?
        ensures HasItsBlob(t[x].row, s.blobs)
      {
        assert x != c.document ==> HasItsBlob(s.tables[x].row, s.blobs);
      }
    }
  }

  /** Soft-deleting the new row restores the live rows, and no job for it passes the checks. */
  lemma RowUndone(t: Tables, x: Uuid, e: Entry, owner: Uuid, now: nat)
    requires x !in t && e.row.owner == owner && !e.row.deleted && UniqueContent(t)
    ensures var after := SoftDelete(t[x := e], now, Canonical(x), Canonical(owner)).0;
            && LiveRows(after) == LiveRows(t) && UniqueContent(after)
            && forall job: Job | job.document == Canonical(x) :: !Admission(after, job).Claiming?
  {
    var after := SoftDelete(t[x := e], now, Canonical(x), Canonical(owner)).0;
    assert forall y | y in after && y != x :: after[y] == t[y];
  }

  lemma UndoneKeeps(s: Stores, c: UploadCall)
    ensures StoresLawful(s) ==> StoresLawful(Undone(s, c))
    ensures Consistent(s) ==> Consistent(Undone(s, c))
  {
  }

  /** Only the live rows matter. */
  lemma SameLive(s: Stores, r: Stores, c: UploadCall)
    requires LiveRows(s.tables) == LiveRows(r.tables) && s.blobs == r.blobs
    ensures Consistent(s) ==> Consistent(r)
    ensures IsNew(s.tables, c) ==> IsNew(r.tables, c)
  {
    forall x | x in r.tables && !r.tables[x].row.deleted
      ensures x in s.tables && s.tables[x] == r.tables[x]
    {
      assert x in LiveRows(r.tables);
    }
    if IsNew(s.tables, c) {
      forall x
        ensures !HasLiveContent(r.tables, x, Sha256(c.upload.digest), Canonical(c.owner))
      {
        assert !HasLiveContent(s.tables, x, Sha256(c.upload.digest), Canonical(c.owner));
      }
    }
  }

  /** Taking a file away leaves every live row its own exactly if none is stored there. */
  lemma TakingKeepsIff(s: Stores, key: StorageKey)
    requires Consistent(s)
    ensures Consistent(s.(blobs := s.blobs - {key})) <==> !StoredAt(s.tables, key)
  {
    var t, blobs := s.tables, s.blobs - {key};
    if StoredAt(t, key) {
      var x :| x in t && !t[x].row.deleted && t[x].row.storageKey == Some(key);
      assert !HasItsBlob(t[x].row, blobs);
    } else {
      forall x | x in t && !t[x].row.deleted && t[x].row.storageKey.Some?
        ensures HasItsBlob(t[x].row, blobs)
      {
        assert HasItsBlob(t[x].row, s.blobs);
      }
    }
  }

  /** Nothing is stored at the key of new content. */
  lemma NewIsNotStored(s: Stores, c: UploadCall)
    requires Consistent(s) && (IsNew(s.tables, c) || KeyOf(c) !in s.blobs)
    ensures !StoredAt(s.tables, KeyOf(c))
  {
    if StoredAt(s.tables, KeyOf(c)) {
      var x :| x in s.tables && !s.tables[x].row.deleted && s.tables[x].row.storageKey == Some(KeyOf(c));
      assert HasItsBlob(s.tables[x].row, s.blobs);
      assert HasLiveContent(s.tables, x, Sha256(c.upload.digest), Canonical(c.owner));
      assert false;
    }
  }

  // --- what every upload keeps ---------------------------------------------------------------

  lemma DiscardedIsLawful(s: Stores, c: UploadCall, createdBlob: bool)
    requires StoresLawful(s)
    ensures StoresLawful(Discarded(s, c, createdBlob))
  {
  }

  lemma InsertedIsLawful(s: Stores, c: UploadCall)
    requires StoresLawful(s) && c.document !in s.tables && IsNew(s.tables, c)
    ensures StoresLawful(Inserted(s, c))
  {
    DuplicateIff(s.tables, c.document, NewDocument(c.owner, c.upload, c.now));
  }

  lemma RecordingIsLawful(s: Stores, c: UploadCall, createdBlob: bool)
    requires StoresLawful(s) && c.document !in s.tables && Lawful(c)
    ensures StoresLawful(Finish(Recording(s, c, createdBlob), c).stores)
  {
    hide UniqueContent, Addressed, IsNew, Undone, Queued, Discarded;
    var course := Recording(s, c, createdBlob);
    if IsNew(s.tables, c) {
      InsertedIsLawful(s, c);
      var inserted := Found(c.overlap.enqueue, Inserted(s, c));
      var queued := inserted.(jobs := Queued(inserted.jobs, JobFor(c.document, c.owner, c.upload), c.faults.enqueue));
      UndoneKeeps(Found(c.overlap.undo, queued), c);
    }
    if course.Discards? {
      DiscardedIsLawful(Found(c.overlap.discard, course.stores), c, course.createdBlob);
    }
  }

  /** Whatever fails and whatever others do: one live row an owner and content, and every file under its hash. */
  lemma UploadIsLawful(s: Stores, c: UploadCall)
    requires StoresLawful(s) && c.document !in s.tables && Lawful(c)
    ensures StoresLawful(Ending(s, c).stores)
  {
    hide UniqueContent, Addressed, IsNew, Recording, Put;
    PutKeeps(Found(c.overlap.put, s), c);
    PutIs(Found(c.overlap.put, s), c);
    if ComesToInsert(s, c) {
      RecordingIsLawful(AtInsert(s, c), c, KeyOf(c) !in Found(c.overlap.put, s).blobs);
    }
  }

  // --- when every live row keeps its file ----------------------------------------------------

  /** It removes a file it created, and by then a live row is stored there. */
  ghost predicate TakesAway(s: Stores, c: UploadCall) {
    && ComesToDiscard(s, c)
    && KeyOf(c) !in Found(c.overlap.put, s).blobs && !c.faults.discard
    && StoredAt(AtDiscard(s, c).tables, KeyOf(c))
  }

  /** It leaves its own row behind, inserted after others had removed the file it had put or found. */
  ghost predicate InsertsTooLate(s: Stores, c: UploadCall) {
    && Inserts(s, c) && KeyOf(c) !in AtInsert(s, c).blobs
    && c.overlap.enqueue.None?
    && (c.faults.enqueue.Enqueues? || (c.faults.undo && c.overlap.undo.None?))
  }

  lemma InsertIsConsistent(s: Stores, c: UploadCall)
    requires Consistent(s) && c.document !in s.tables && Lawful(c) && OthersKeepFiles(c)
    ensures Consistent(Put(Found(c.overlap.put, s), c)) && Consistent(AtInsert(s, c))
    ensures c.document !in AtInsert(s, c).tables
  {
    hide UniqueContent, Addressed, AllHaveBlobs, Put;
    PutKeeps(Found(c.overlap.put, s), c);
    PutIs(Found(c.overlap.put, s), c);
  }

  lemma UndoIsConsistent(s: Stores, c: UploadCall)
    requires Consistent(AtInsert(s, c)) && c.document !in AtInsert(s, c).tables && OthersKeepFiles(c)
    requires IsNew(AtInsert(s, c).tables, c)
    ensures Consistent(AtEnqueue(s, c)) <==> c.overlap.enqueue.Some? || KeyOf(c) in AtInsert(s, c).blobs
    ensures Consistent(AtUndo(s, c)) <==> c.overlap.undo.Some? || Consistent(AtEnqueue(s, c))
    ensures Consistent(Undone(AtUndo(s, c), c))
  {
    hide UniqueContent, Addressed, AllHaveBlobs, IsNew, AtInsert, Inserted, Undone, Queued;
    var into := AtInsert(s, c);
    InsertedKeepsIff(into, c);
    UndoneKeeps(AtUndo(s, c), c);
    if c.overlap.enqueue.None? && c.overlap.undo.None? {
      NewRowGoes(into, AtUndo(s, c), c);
    }
  }

  lemma NewRowGoes(s: Stores, r: Stores, c: UploadCall)
    requires Consistent(s) && c.document !in s.tables
    requires r.tables == Inserted(s, c).tables && r.blobs == Inserted(s, c).blobs
    ensures Consistent(Undone(r, c)) && LiveRows(Undone(r, c).tables) == LiveRows(s.tables)
    ensures Undone(r, c).blobs == s.blobs
  {
    hide UniqueContent, Addressed, AllHaveBlobs, IsNew;
    RowUndone(s.tables, c.document, Entry(NewDocument(c.owner, c.upload, c.now), [], []), c.owner, c.now);
    SameLive(s, Undone(r, c), c);
  }

  /**
   Where others leave every live row its file, an upload does too, whichever of its calls fail, except in
   exactly two cases: it removes the file it created, after an error, when a live row has come to be stored
   there; or it inserts its row after others have removed the file.
   */
  lemma FilesKeptIff(s: Stores, c: UploadCall)
    requires Consistent(s) && c.document !in s.tables && Lawful(c) && OthersKeepFiles(c)
    ensures Consistent(Ending(s, c).stores) <==> !TakesAway(s, c) && !InsertsTooLate(s, c)
  {
    hide UniqueContent, Addressed, AllHaveBlobs, IsNew, Put, Undone, Queued, Inserted, StoredAt;
    InsertIsConsistent(s, c);
    if ComesToInsert(s, c) {
      if Inserts(s, c) {
        UndoIsConsistent(s, c);
      }
      if ComesToDiscard(s, c) {
        TakingKeepsIff(AtDiscard(s, c), KeyOf(c));
      }
    }
  }

  // --- what an upload answers, and what it leaves ---------------------------------------------

  /** Which answer, from what fails and from whether the content is new at the check, the insert and the lookup. */
  lemma AnswerIs(s: Stores, c: UploadCall)
    ensures var answer, isNew := Ending(s, c).answer, IsNew(s.tables, c);
            var inserted := IsNew(AtInsert(s, c).tables, c);
            && (answer.Existing? <==> !isNew || (c.faults.put.Puts? && !c.faults.insert && !inserted
                                                 && !IsNew(AtLookup(s, c).tables, c)))
            && (answer.Created? <==> Inserts(s, c) && c.faults.enqueue.Enqueues?)
            && (answer == StorageError <==> isNew && c.faults.put.PutFails?)
            && (answer == IngestionUnavailable <==> Inserts(s, c) && c.faults.enqueue.EnqueueFails?)
            && (answer == UploadPersistenceFailed <==>
                  ComesToDiscard(s, c) && (c.faults.insert || !inserted))
            && answer != UploadRejected
  {
    hide IsNew, Put, Inserted, Undone, Queued;
  }

  /** An upload answered by a document answers with the owner's own live one, and has changed no table and no queue. */
  lemma ExistingIsLive(s: Stores, c: UploadCall)
    requires Ending(s, c).answer.Existing?
    ensures var e := Ending(s, c);
            && HasLiveContent(e.stores.tables, e.answer.document, Sha256(c.upload.digest), Canonical(c.owner))
            && e.stores == if !IsNew(s.tables, c) then s else AtLookup(s, c)
  {
    hide IsNew, Put, Inserted, Undone, Queued, HasLiveContent;
  }

  /** A document created has a job queued, and the job of its row passes every check of the worker. */
  lemma CreatedIsQueued(s: Stores, c: UploadCall)
    requires Ending(s, c).answer.Created? && c.document !in AtInsert(s, c).tables
    ensures var e, job := Ending(s, c), JobFor(c.document, c.owner, c.upload);
            && e.answer.document == c.document
            && Canonical(c.document) in e.stores.jobs
            && (Canonical(c.document) !in AtEnqueue(s, c).jobs ==> e.stores.jobs[Canonical(c.document)] == job)
            && (c.overlap.enqueue.None? ==>
                  && e.stores.tables == WithRow(AtInsert(s, c).tables, c.document, c.owner, c.upload, c.now)
                  && Admission(e.stores.tables, job) == Claiming(ParseStage))
  {
    hide IsNew, Put, Undone, Admission;
    NewRowIsLive(AtInsert(s, c).tables, c.document, NewDocument(c.owner, c.upload, c.now));
  }

  /**
   The row, the file and the job of a document created, column by column, where nobody has acted on the row and
   the queue since: pending, with nothing counted and nothing failed, and the pages validation counted.
   */
  ghost predicate IsTheUpload(s: Stores, c: UploadCall) {
    var digest, key := c.upload.digest, Key(c.owner, c.upload.digest);
    && c.document in s.tables
    && s.tables[c.document].pages == [] && s.tables[c.document].chunks == []
    && var row := s.tables[c.document].row;
    && row.owner == c.owner && row.contentHash == Some(Sha256(digest)) && row.storageKey == Some(key)
    && row.mimeType == Some(Pdf) && row.pageCount == Some(c.upload.pageCount)
    && row.status == Pending && row.failureReason == None && row.chunkCount == 0
    && !row.deleted && row.updatedAt == c.now
    && Canonical(c.document) in s.jobs
    && s.jobs[Canonical(c.document)]
       == Job(RawId(Some(c.document), 0), RawId(Some(c.owner), 0), key, Sha256(digest), Pdf)
  }

  lemma CreatedIs(s: Stores, c: UploadCall)
    requires Ending(s, c).answer.Created? && c.overlap.enqueue.None?
    requires Canonical(c.document) !in AtInsert(s, c).jobs
    ensures Ending(s, c).answer == Created(c.document) && IsTheUpload(Ending(s, c).stores, c)
    ensures Ending(s, c).stores.blobs == AtInsert(s, c).blobs
    ensures c.overlap.insert.None? ==> Key(c.owner, c.upload.digest) in Ending(s, c).stores.blobs
    ensures forall x | x in AtInsert(s, c).tables && x != c.document ::
              x in Ending(s, c).stores.tables && Ending(s, c).stores.tables[x] == AtInsert(s, c).tables[x]
    ensures Ending(s, c).stores.tables.Keys == AtInsert(s, c).tables.Keys + {c.document}
  {
    hide IsNew, Put, Undone;
    PutKeeps(Found(c.overlap.put, s), c);
  }

  /** An upload undone leaves no job the worker would take, whatever the queue did, unless others revive its row. */
  lemma UndoneIsNotAdmitted(s: Stores, c: UploadCall, job: Job)
    requires Ending(s, c).answer == IngestionUnavailable && !c.faults.undo && job.document == Canonical(c.document)
    requires job.owner == Canonical(c.owner)
    requires c.overlap.discard.Some? ==> !Owned(c.overlap.discard.value.tables, job.document, job.owner)
    ensures !Admission(Ending(s, c).stores.tables, job).Claiming?
  {
    hide IsNew, Put, Inserted, Queued, AtInsert;
  }

  /** What an upload that raised leaves, if nobody else acted. */
  predicate LeavesAsBefore(s: Stores, r: Stores, c: UploadCall, answer: UploadAnswer) {
    var undoFailed := answer == IngestionUnavailable && c.faults.undo;
    && (!undoFailed ==> LiveRows(r.tables) == LiveRows(s.tables))
    && (!undoFailed && !c.faults.discard && c.faults.put.Puts? ==> r.blobs == s.blobs)
    && (forall k | k in s.blobs :: k in r.blobs && r.blobs[k] == s.blobs[k])
    && r.blobs - {KeyOf(c)} == s.blobs - {KeyOf(c)}
    && r.jobs - {Canonical(c.document)} == s.jobs
    && (answer != IngestionUnavailable ==> r.jobs == s.jobs && r.tables == s.tables)
  }

  /** Nobody else's row can come to be stored there, and nobody takes the file. */
  lemma AloneTakesNothing(s: Stores, c: UploadCall)
    requires Consistent(s) && c.document !in s.tables && c.overlap == NoOverlap
    ensures !TakesAway(s, c) && !InsertsTooLate(s, c)
  {
    hide UniqueContent, Addressed, AllHaveBlobs, IsNew, Inserted, Undone, Queued, StoredAt;
    PutKeeps(s, c);
    PutIs(s, c);
    if ComesToInsert(s, c) {
      NewIsNotStored(AtInsert(s, c), c);
      if Inserts(s, c) {
        NewRowGoes(AtInsert(s, c), AtUndo(s, c), c);
        SameLive(s, Undone(AtUndo(s, c), c).(blobs := s.blobs), c);
        NewIsNotStored(Undone(AtUndo(s, c), c), c);
      }
    }
  }

  lemma FailedLeavesAsBefore(s: Stores, c: UploadCall)
    requires c.overlap == NoOverlap && Canonical(c.document) !in s.jobs
    requires IsError(Ending(s, c).answer) && !Inserts(s, c)
    ensures LeavesAsBefore(s, Ending(s, c).stores, c, Ending(s, c).answer)
  {
    hide IsNew, Undone, Put;
    PutIs(s, c);
  }

  lemma UndoneLeavesTheRest(s: Stores, c: UploadCall)
    ensures Undone(s, c).jobs == s.jobs && Undone(s, c).blobs == s.blobs && Undone(s, c).tables.Keys == s.tables.Keys
  {
  }

  lemma UndoneLeavesAsBefore(s: Stores, c: UploadCall)
    requires Consistent(s) && c.document !in s.tables && c.overlap == NoOverlap && Canonical(c.document) !in s.jobs
    requires Inserts(s, c) && c.faults.enqueue.EnqueueFails?
    ensures LeavesAsBefore(s, Ending(s, c).stores, c, IngestionUnavailable)
  {
    hide Consistent, IsNew, Undone, Put, LiveRows;
    PutIs(s, c);
    InsertIsConsistent(s, c);
    NewRowGoes(AtInsert(s, c), AtUndo(s, c), c);
    UndoneLeavesTheRest(AtUndo(s, c), c);
  }

  /**
   An upload nobody else acts during is all or nothing. It succeeds with one new live row, its file and its
   job, or finds the document already there and changes nothing; or it raises and leaves live rows and files
   as they were, unless undoing something failed too. It never takes away a file that was there before.
   */
  lemma AllOrNothing(s: Stores, c: UploadCall)
    requires Consistent(s) && c.document !in s.tables && Canonical(c.document) !in s.jobs && c.overlap == NoOverlap
    ensures var e := Ending(s, c);
            && Consistent(e.stores)
            && (e.answer.Existing? ==> e.stores == s)
            && (e.answer.Created? ==>
                  e.stores == Stores(WithRow(s.tables, c.document, c.owner, c.upload, c.now),
                                     WithFile(s.blobs, KeyOf(c), Sha256(c.upload.digest)),
                                     s.jobs[Canonical(c.document) := JobFor(c.document, c.owner, c.upload)]))
            && (IsError(e.answer) ==> LeavesAsBefore(s, e.stores, c, e.answer))
  {
    hide Consistent, IsNew, Undone, WithRow, LeavesAsBefore, Put, WithFile;
    AloneTakesNothing(s, c);
    FilesKeptIff(s, c);
    PutIs(s, c);
    if Inserts(s, c) {
      if c.faults.enqueue.EnqueueFails? {
        UndoneLeavesAsBefore(s, c);
      }
    } else if !Ending(s, c).answer.Existing? {
      FailedLeavesAsBefore(s, c);
    }
  }

  // --- what overlap can cost -----------------------------------------------------------------

  /** Two uploads of one content by one owner, which has no such document and no such file yet. */
  ghost predicate TwoUploads(s: Stores, c: UploadCall, d: UploadCall) {
    && Consistent(s) && IsNew(s.tables, c) && KeyOf(c) !in s.blobs
    && c.document !in s.tables && d.document !in s.tables && c.document != d.document
    && Canonical(c.document) !in s.jobs && Canonical(d.document) !in s.jobs
    && d.owner == c.owner && d.upload == c.upload
  }

  /** The document of this upload is live, pending and queued, and its file is gone. */
  predicate LostItsFile(s: Stores, d: UploadCall) {
    && d.document in s.tables && !s.tables[d.document].row.deleted && s.tables[d.document].row.status == Pending
    && s.tables[d.document].row.storageKey == Some(KeyOf(d))
    && Canonical(d.document) in s.jobs && KeyOf(d) !in s.blobs
  }

  lemma SecondIsCreated(s: Stores, d: UploadCall)
    requires IsNew(s.tables, d) && d.document !in s.tables && Canonical(d.document) !in s.jobs && KeyOf(d) in s.blobs
    requires d.faults == NoFaults && d.overlap == NoOverlap
    ensures var e := Ending(s, d);
            && e.answer == Created(d.document)
            && e.stores == Inserted(s, d).(jobs := s.jobs[Canonical(d.document) := JobFor(d.document, d.owner, d.upload)])
            && StoredAt(e.stores.tables, KeyOf(d))
  {
    hide NoLiveContent;
    var t := Inserted(s, d).tables;
    assert t[d.document].row.storageKey == Some(KeyOf(d));
  }

  /**
   The first upload creates the file. The second, which finds it, is recorded and queued. Then the first fails
   to insert and takes its file away.
   */
  lemma OverlapLosesAFile(s: Stores, c: UploadCall, d: UploadCall)
    requires TwoUploads(s, c, d)
    requires c.faults == NoFaults.(insert := true) && d.faults == NoFaults && d.overlap == NoOverlap
    requires c.overlap == NoOverlap.(insert := Some(Ending(Put(s, c), d).stores))
    ensures Ending(Put(s, c), d).answer == Created(d.document)
    ensures Ending(s, c).answer == UploadPersistenceFailed && TakesAway(s, c)
    ensures LostItsFile(Ending(s, c).stores, d)
  {
    hide UniqueContent, Addressed, AllHaveBlobs, NoLiveContent, HasLiveContent;
    SecondIsCreated(Put(s, c), d);
  }

  /**
   The first upload is recorded, but cannot be queued, and its row is taken back. Before it comes to its file,
   the second finds the file, is recorded and is queued. Then the first takes its file away.
   */
  lemma UndoLosesAFile(s: Stores, c: UploadCall, d: UploadCall)
    requires TwoUploads(s, c, d)
    requires c.faults == NoFaults.(enqueue := EnqueueFails(false)) && d.faults == NoFaults && d.overlap == NoOverlap
    requires c.overlap == NoOverlap.(discard := Some(Ending(Undone(Inserted(Put(s, c), c), c), d).stores))
    ensures Ending(Undone(Inserted(Put(s, c), c), c), d).answer == Created(d.document)
    ensures Ending(s, c).answer == IngestionUnavailable && TakesAway(s, c)
    ensures LostItsFile(Ending(s, c).stores, d)
  {
    hide Consistent, NoLiveContent, HasLiveContent, SoftDelete, LiveRows, StoredAt;
    var put := Put(s, c);
    PutKeeps(s, c);
    NewRowGoes(put, Inserted(put, c), c);
    var undone := Undone(Inserted(put, c), c);
    UndoneLeavesTheRest(Inserted(put, c), c);
    SameLive(put, undone, d);
    SecondIsCreated(undone, d);
  }

  /**
   The second upload finds the file the first created. The first fails to insert and takes its file away. Then
   the second is recorded and queued.
   */
  lemma LateInsertLosesAFile(s: Stores, c: UploadCall, d: UploadCall)
    requires TwoUploads(s, c, d)
    requires c.faults == NoFaults.(insert := true) && c.overlap == NoOverlap && d.faults == NoFaults
    requires d.overlap == NoOverlap.(put := Some(Put(s, c)), insert := Some(Ending(s, c).stores))
    ensures Ending(s, c).answer == UploadPersistenceFailed
    ensures Ending(s, d).answer == Created(d.document) && InsertsTooLate(s, d)
    ensures LostItsFile(Ending(s, d).stores, d)
  {
    hide UniqueContent, Addressed, AllHaveBlobs, NoLiveContent, HasLiveContent;
  }
}
