/** The storage and the document service: upload and delete, as they act on the shared stores. */
module DocumentServices {
  import opened Identifiers
  import opened Tables
  import opened Pipeline
  import opened Repositories
  import opened Recovery
  import opened Uploads

  class Storage {
    var blobs: Blobs

    constructor ()
      ensures blobs == map[]
    {
      blobs := map[];
    }

    /** `put`: whether this call created the file. An existing file is left as it is. */
    method Put(key: StorageKey, content: Hash, fault: PutFault) returns (r: Option<bool>)
      modifies this
      ensures r.None? <==> fault.PutFails?
      ensures r.Some? ==> r.value == (key !in old(blobs))
      ensures blobs == if key !in old(blobs) && (fault.Puts? || fault.stored) then old(blobs)[key := content]
                       else old(blobs)
    {
      var created := key !in blobs;
      if created && (fault.Puts? || fault.stored) {
        blobs := blobs[key := content];
      }
      r := if fault.Puts? then Some(created) else None;
    }

    /** `delete`; a failure is the caller's to log. */
    method Delete(key: StorageKey, fails: bool)
      modifies this
      ensures blobs == if fails then old(blobs) else old(blobs) - {key}
    {
      if !fails {
        blobs := blobs - {key};
      }
    }
  }

  /** How far an upload comes with its file. */
  datatype FileAnswer = AlreadyLive(document: Uuid) | NotStored | Stored(createdBlob: bool)

  class DocumentService {
    var tables: Tables
    var now: nat
    const storage: Storage
    const ingestion: IngestionQueue

    constructor (storage: Storage, ingestion: IngestionQueue)
      ensures this.storage == storage && this.ingestion == ingestion && tables == map[]
    {
      this.storage, this.ingestion, tables, now := storage, ingestion, map[], 0;
    }

    function Shared(): Stores
      reads this, storage, ingestion
    {
      Stores(tables, storage.blobs, ingestion.jobs)
    }

    /** What others have made of the stores, if they have acted since the last call. */
    method Meanwhile(overlap: Option<Stores>)
      modifies this`tables, storage, ingestion
      ensures Shared() == Found(overlap, old(Shared()))
    {
      if overlap.Some? {
        tables, storage.blobs, ingestion.jobs := overlap.value.tables, overlap.value.blobs, overlap.value.jobs;
      }
    }

    /**
     `upload_and_process`, under any faults, and whatever others do to the stores between its calls. It ends
     as `Ending` says. If others leave every live row its file, then so does this upload, except in exactly two
     cases: it takes away a file another live row has come to use, or it inserts its row after its file has
     been taken away. Without overlap neither can happen.
     */
    method UploadAndProcess(c: UploadCall, valid: bool) returns (answer: UploadAnswer)
      requires StoresLawful(Shared()) && c.document !in tables && c.now == now && Lawful(c)
      modifies this`tables, storage, ingestion
      ensures !valid ==> answer == UploadRejected && Shared() == old(Shared())
      ensures valid ==> UploadEnd(answer, Shared()) == Ending(old(Shared()), c)
      ensures StoresLawful(Shared())
      ensures answer.Created? && c.overlap == NoOverlap && Canonical(c.document) !in old(ingestion.jobs) ==>
                && answer.document == c.document && IsTheUpload(Shared(), c)
                && Key(c.owner, c.upload.digest) in storage.blobs
      ensures valid && old(Consistent(Shared())) && OthersKeepFiles(c) ==>
                (Consistent(Shared()) <==> !TakesAway(old(Shared()), c) && !InsertsTooLate(old(Shared()), c))
      ensures old(Consistent(Shared())) && c.overlap == NoOverlap ==> Consistent(Shared())
    {
      hide UniqueContent, Addressed, AllHaveBlobs, IsNew, Recording, Undone, TakesAway, InsertsTooLate, IsTheUpload;
      if !valid {
        return UploadRejected;
      }
      UploadIsLawful(Shared(), c);
      if Consistent(Shared()) && OthersKeepFiles(c) {
        FilesKeptIff(Shared(), c);
        if c.overlap == NoOverlap {
          AloneTakesNothing(Shared(), c);
        }
      }
      PutKeeps(Found(c.overlap.put, Shared()), c);
      PutIs(Found(c.overlap.put, Shared()), c);
      var stored := StoreFile(c);
      match stored {
        case AlreadyLive(document) => answer := Existing(document);
        case NotStored => answer := StorageError;
        case Stored(createdBlob) =>
          Meanwhile(c.overlap.insert);
          answer := Record(c, createdBlob);
      }
      if answer.Created? && c.overlap == NoOverlap && Canonical(c.document) !in old(ingestion.jobs) {
        CreatedIs(old(Shared()), c);
      }
    }

    /** `upload_and_process` as far as the file: the owner's document with this content, or the file stored. */
    method StoreFile(c: UploadCall) returns (r: FileAnswer)
      requires UniqueContent(tables)
      modifies this`tables, storage, ingestion
      ensures r.AlreadyLive? <==> !IsNew(old(tables), c)
      ensures r.AlreadyLive? ==> Live(old(tables), c) == Some(r.document) && Shared() == old(Shared())
      ensures !r.AlreadyLive? ==>
                && Shared() == Uploads.Put(Found(c.overlap.put, old(Shared())), c)
                && (r.NotStored? <==> c.faults.put.PutFails?)
                && (r.Stored? ==> r.createdBlob == (KeyOf(c) !in Found(c.overlap.put, old(Shared())).blobs))
    {
      hide HasLiveContent, UniqueContent;
      var session := new Session(tables, now);
      var documents := new DocumentRepository(session);
      var existing := documents.FindLiveByContentHashForUser(Sha256(c.upload.digest), Canonical(c.owner));
      if existing.Some? {
        OneIsLive(tables, c, existing.value);
        return AlreadyLive(existing.value);
      }
      Meanwhile(c.overlap.put);
      var created := storage.Put(KeyOf(c), Sha256(c.upload.digest), c.faults.put);
      r := if created.None? then NotStored else Stored(created.value);
    }

    /** `upload_and_process`, from the insert on. */
    method Record(c: UploadCall, createdBlob: bool) returns (answer: UploadAnswer)
      requires UniqueContent(tables) && c.document !in tables && c.now == now && Lawful(c)
      modifies this`tables, storage, ingestion
      ensures UploadEnd(answer, Shared()) == Finish(Recording(old(Shared()), c, createdBlob), c)
    {
      hide UniqueContent, HasLiveContent, Queueing, Losing;
      if c.faults.insert {
        Meanwhile(c.overlap.discard);
        Discard(c, createdBlob);
        return UploadPersistenceFailed;
      }
      var session := new Session(tables, now);
      var documents := new DocumentRepository(session);
      DuplicateIff(tables, c.document, NewDocument(c.owner, c.upload, now));
      var recorded := documents.Create(c.document, NewDocument(c.owner, c.upload, now));
      if !recorded {
        answer := AnswerWithWinner(c, createdBlob);
        return;
      }
      tables := session.tables;
      Meanwhile(c.overlap.enqueue);
      answer := Enqueue(c, createdBlob);
    }

    /** `upload_and_process`, where the index has refused the row. */
    method AnswerWithWinner(c: UploadCall, createdBlob: bool) returns (answer: UploadAnswer)
      requires UniqueContent(tables) && Lawful(c)
      modifies this`tables, storage, ingestion
      ensures UploadEnd(answer, Shared()) == Finish(Losing(old(Shared()), c, createdBlob), c)
    {
      hide UniqueContent, HasLiveContent;
      Meanwhile(c.overlap.lookup);
      var session := new Session(tables, now);
      var documents := new DocumentRepository(session);
      var winner := documents.FindLiveByContentHashForUser(Sha256(c.upload.digest), Canonical(c.owner));
      if winner.Some? {
        OneIsLive(tables, c, winner.value);
        return Existing(winner.value);
      }
      Meanwhile(c.overlap.discard);
      Discard(c, createdBlob);
      answer := UploadPersistenceFailed;
    }

    /** `upload_and_process`, once the row is committed. */
    method Enqueue(c: UploadCall, createdBlob: bool) returns (answer: UploadAnswer)
      requires c.now == now
      modifies this`tables, storage, ingestion
      ensures UploadEnd(answer, Shared()) == Finish(Queueing(old(Shared()), c, createdBlob), c)
    {
      hide Undoing;
      var queued := ingestion.Enqueue(JobFor(c.document, c.owner, c.upload), c.faults.enqueue);
      if queued.None? {
        Meanwhile(c.overlap.undo);
        UndoUnqueuedUpload(c, createdBlob);
        return IngestionUnavailable;
      }
      answer := Created(c.document);
    }

    /** `_undo_unqueued_upload` */
    method UndoUnqueuedUpload(c: UploadCall, createdBlob: bool)
      requires c.now == now
      modifies this`tables, storage, ingestion
      ensures UploadEnd(IngestionUnavailable, Shared()) == Finish(Undoing(old(Shared()), c, createdBlob), c)
    {
      var session := new Session(tables, now);
      var documents := new DocumentRepository(session);
      var deleted := documents.SoftDeleteForUser(Canonical(c.document), Canonical(c.owner));
      if c.faults.undo {
        return;
      }
      tables := session.tables;
      Meanwhile(c.overlap.discard);
      Discard(c, createdBlob);
    }

    /** `_discard`: only a file this upload created. */
    method Discard(c: UploadCall, createdBlob: bool)
      modifies storage
      ensures Shared() == Discarded(old(Shared()), c, createdBlob)
    {
      if createdBlob {
        storage.Delete(KeyOf(c), c.faults.discard);
      }
    }

    /** `delete_document`: at most the one live row, and never a file. */
    method DeleteDocument(document: RawId<Uuid>, user: RawId<Uuid>, fails: bool) returns (deleted: Option<bool>)
      requires Consistent(Shared())
      modifies this`tables
      ensures Consistent(Shared())
      ensures deleted.None? <==> fails
      ensures deleted.Some? ==> deleted.value == Owned(old(tables), document, user)
      ensures LiveRows(tables) == if deleted == Some(true) then old(LiveRows(tables)) - {document.parsed.value}
                                  else old(LiveRows(tables))
    {
      var session := new Session(tables, now);
      var documents := new DocumentRepository(session);
      var found := documents.SoftDeleteForUser(document, user);
      if fails {
        return None;
      }
      if found {
        tables := session.tables;
      }
      deleted := Some(found);
    }
  }
}
