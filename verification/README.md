# The document path, from uploaded bytes to search results

A Dafny model of the ingestion service, of search, and of the text algorithms between them, with proofs of
what they promise. `dafny verify dfyconfig.toml` checks all of it.

## What is modelled

**The pipeline** (`Pipeline.dfy` to `DeliveryTheorems.dfy`, `Disagreeing.dfy`, `FailureCauses.dfy`, `Spelling.dfy`,
`TwoSpellings.dfy`). A document moves
`pending → processing → parsed → processing → chunked → processing → ready | failed`, and every move is a
committed compare-and-set. PostgreSQL (`Tables.dfy`) and the vector store (`VectorIndex.dfy`) share no
transaction, so a state holds both, a clock, and every delivery of a job with a program counter. One step is
one committed transaction, one read, or one call to a collaborator; what the call returns or raises is the
step's `Choice`. A run is any list of events: steps of any deliveries under any configurations, cancellations,
dying processes, deliveries, uploads, deletes, reaps and clock ticks, in any order. `processing` does not say
which stage holds the claim; `PipelineInvariant.Inv` says how each delivery's own stage agrees with the
stored data, and `PipelineSafety.RunInv` shows that every event keeps it. The theorems in
`PipelineTheorems.dfy` and `DeliveryTheorems.dfy` speak of `Reached`: every state of every run from the empty
system in which the jobs of one document spell its id alike.

**The service as it is written** (`Repositories.dfy`, `World.dfy`, `ServiceSteps.dfy`, `IngestionService.dfy`,
`Worker.dfy`). The repositories are classes over a session that is published by a commit and forgotten by a
rollback. `IngestionService` has the source's methods, branches and handlers. Wherever it awaits, anything
others do may happen (`World.Await`) and the delivery may be cancelled. What each call does is an oracle's to
say, any function of the moment it is made at, so that every fault can happen and no method can choose one.
Every method is proved to take exactly the pipeline's steps: its contract says where it leaves the delivery, and
that the state is one a recorded run with those answers leads to (`World.Valid`). So the theorems hold between
any two lines of this code, as long as the jobs delivered spell ids alike. `Recovery.dfy` is the sweep that queues documents again.

**Search** (`Retrieval.dfy`, `VectorStore.dfy`, `SearchService.dfy`, `SearchTheorems.dfy`): the deduplicating
loop, the owner-scoped join and the ordered results, for an index that may answer anything; and agreement with
a plain filter over the tables, for a user's query in its own fields, when the index is the in-memory store and the
state is one the pipeline reaches.

**The text algorithms** (`ReadingOrder.dfy`, `Sections.dfy`, `Windows.dfy`, `References.dfy`, `Chunker.dfy`,
`ChunkerTheorems.dfy`, `SectionChunks.dfy`), each loop proved equal to a specification, and the specification's properties proved.
`ChunkersAreGood` shows that these chunkers meet the one assumption the pipeline makes of its chunker.

**Upload** (`Uploads.dfy`, `DocumentService.dfy`, `Producers.dfy`): a stored file, a row and a queued job, which share
no transaction, and what is undone when one fails. Between any two calls of an upload others may make anything of
tables, files and queue that the unique index allows, so an upload is specified as a function of the stores it starts
from, its faults, and what others leave by each call. `DocumentService` is proved to end as that function says, and
the theorems are about it. `Producers.dfy` shows how uploads and recovered documents enter the pipeline's
runs, and takes an upload of readable bytes all the way to a ready document.

## Assumptions

- A commit happens or has no effect. A cancellation releases only a claim still held, shielded from a second one.
- A vector-store call that fails or is cut off may have applied any part of its effect by the time it returns.
- The extractor, the chunker of one version and the embedder of one model are deterministic functions; any call
  of them may fail. The number and size of tokens a version's chunker uses is part of that version.
- Chunk ids are an injective function of document, index, strategy and tokenizer, as version 5 UUIDs (section
  4.3 of RFC 4122) are taken to be. A content hash stands for the bytes it was computed from.
- The chunker's version pair is the configured pair, as the worker's startup makes it.
- The jobs of one document spell its id alike, in whatever text. `ingest` only parses the id and does not check its
  text; the upload and the recovery sweep both write `str(uuid)`. `Spelling.ExactIffOneText` shows that this is the
  exact condition: whatever texts producers are held to, every run keeps the index exact if and only if no document
  has two.
- A tokenizer's spans are ordered, disjoint, non-empty and cover every character that is not whitespace. The
  reference pattern's matches are strictly increasing positions. Heading and reference-title tests are opaque.
- Coordinates and vector components are reals.

## Where code and documentation differ

- `recover_pending` says that it never queues a `chunked` document again; `RECOVERABLE_STATUSES` includes
  `chunked`, and the model does too.
- Of a job that cannot be trusted the reason codes say that its document is left untouched
  (shared/models/ingestion.py:59). `ingest` keeps to that; `record_given_up` does not compare job and row again, and a last attempt that ends in an error can fail a document its job was never about.
  `DisagreeingJobs` has the failing run and the exact condition: the attempt is the last, the storage key is the
  job's own, and the job names the owner's live row, not yet ready or failed.
- `upload_and_process` says that a concurrent identical upload whose file is removed leaves at worst an orphaned file
  (backend/services/document_service.py:143-147). It can leave a live, queued document without its file, in three
  ways: the other upload removes the file after its insert failed (`OverlapLosesAFile`), or after undoing its own row
  (`UndoLosesAFile`), or before this one's row is inserted (`LateInsertLosesAFile`). `FilesKeptIff` is the exact
  condition, on what an upload finds at each call: it removes a file it created when a live row has come to be stored
  there, or it inserts its row when the file has gone.

## Model

| member | source | states |
|---|---|---|
| PipelineSafety.RunInv | backend/services/ingestion_service.py:196-775 | Every event keeps the invariant: each delivery's stage, and what it carries, agree with the stored data; one holder a document; points only for current rows; one live row per owner and content |
| PipelineTheorems.ReadyIsExactlyIndexed | backend/services/ingestion_service.py:526-641 | In every reachable state a `ready` document has chunks of one version and one embedding, and the store holds exactly one point per chunk, with its owner and document, and no other for that document |
| PipelineTheorems.NoOldGeneration | backend/services/ingestion_service.py:643-746 | In every reachable state, between the vector delete and the row replacement too, every point is of a row its document still has, and `chunk_count` counts the rows |
| PipelineTheorems.OneHolderAtItsStage | backend/services/ingestion_service.py:269-309 | At most one delivery is inside a claimed section of a document, and the data is its stage's: nothing stored for parsing, pages alone for chunking, pages and chunks for embedding |
| PipelineTheorems.StatusesHaveTheirData | backend/services/ingestion_service.py:1037-1064 | Every resting status has the data the next stage needs; a reason is set exactly when `failed`; no document fails for missing pages or chunks |
| PipelineTheorems.RunGoesOn | backend/services/ingestion_service.py:196-267 | A run continued is the run from where it stopped |
| PipelineTheorems.StatusesNeverGoBack | backend/db/repositories/document.py:293-345 | Between any two moments of a run resting statuses do not decrease, `ready` and `failed` are final with their data, and a deleted document is never written again |
| PipelineTheorems.SuccessDeterminesTheData | backend/services/ingestion_service.py:526-641 | Whatever happened before or after, a delivery that reports `ready` leaves exactly the pages, chunks and points its bytes and configuration determine |
| PipelineTheorems.RunsConverge | backend/services/ingestion_service.py:196-267 | Two runs, however interleaved and however faulty, that end with the same delivery succeeding end with the same owner, status, pages, chunks and points |
| PipelineProgress.RunAdvances | backend/db/repositories/document.py:293-345 | Along any run every document only advances |
| PipelineAlone.AloneSettles | backend/services/ingestion_service.py:196-309 | A delivery nothing interferes with comes closer to its end with every call, and its status stays in step with where it is |
| DeliveryTheorems.AnAttemptSettles | backend/services/ingestion_service.py:1037-1064 | From any reachable state, an attempt with declared failures ends within twenty calls; a final one in `ready` or `failed`; a transient error leaves exactly the failing stage's start status |
| DeliveryTheorems.AloneIsARun | backend/services/ingestion_service.py:196-267 | A delivery on its own is one of the runs |
| DeliveryTheorems.RetriesSettle | backend/ingestion/worker.py:191-253 | The retry protocol: from any reachable state, the attempts of one job, each with its own configuration, the last one final, that meet only declared failures and no interference, whatever others do between them, end in a reached state with the document `ready` or `failed` |
| DeliveryTheorems.SuccessfulDeliveryConverges | backend/services/ingestion_service.py:196-267 | After any failed, cancelled or killed deliveries under any versions, one delivery without faults makes a document `ready` that is a PDF with the pages counted, within the limit, text on some page and some chunk, with the data an uninterrupted delivery would have left |
| DeliveryTheorems.DeliveriesAreConfined | backend/services/ingestion_service.py:993-1014 | A step, cancellation or death of a delivery changes only the live row its job names with its owner, and that document's points |
| DeliveryTheorems.LetInIff | backend/services/ingestion_service.py:196-267 | A job starts a stage if and only if its key is its own, it names a live row of its owner, agrees with it in every column, and the row waits for that stage; when it is skipped, and that it is rejected otherwise |
| DeliveryTheorems.RejectedBecause | backend/services/ingestion_service.py:205-236 | Which reason a rejected job gets, in the order of the checks |
| FailureCauses.FailuresHaveTheirCause | backend/services/ingestion_service.py:311-448 | Over all runs a recorded reason is true: no block on any page the bytes extract to, another page count than the upload's, another type, a chunker that makes nothing of the pages; and no row fails for what is wrong with a job or for data that went missing |
| FailureCauses.ExtractionFailureIs | backend/services/ingestion_service.py:345-369 | Each failure of the extractor is recorded under its own reason; only an unavailable parser puts the document back, unless the attempt was the last |
| DisagreeingJobs.DisagreeingRetryChangesNothing | backend/services/ingestion_service.py:205-228 | Over all runs, a job that agrees with no row changes neither store, at any call, cancellation or death, if its attempt is not the last or its storage key is not its own |
| DisagreeingJobs.DisagreeingStepIsTheRecorders | backend/services/ingestion_service.py:891-932 | Over all runs, when a job that disagrees with its row changes a store, it is the recorder's doing, on a last attempt, with a derived key, on the owner's live row that is neither ready nor failed |
| DisagreeingJobs.DisagreeingJobFailsIff | backend/services/ingestion_service.py:891-932 | The exact condition, checkable before the delivery: such a job can change a store, and can fail the row, if and only if the attempt is the last, the key is derived, and the row is the owner's, live and unfinished |
| DisagreeingJobs.GivingUpFailsAnotherContent | backend/services/ingestion_service.py:891-932 | The failing run: a last attempt for another content meets an error, and the document it was never about ends `failed` |
| DeliveryTheorems.ReaperSparesLiveWorkers | backend/db/repositories/document.py:347-378 | With a threshold above the job timeout no reap touches a document whose delivery is within its budget |
| DeliveryTheorems.ReaperFailsTheStale | backend/db/repositories/document.py:347-378 | In every reachable state a reap fails exactly the live claims older than the threshold, leaves no older one, and keeps every other row, all pages and chunks and all points |
| Spelling.ExactIffOneText | backend/services/ingestion_service.py:643-746 | Whatever texts producers may use for ids, all runs keep the index exact, and all runs keep live ready documents exact, if and only if no document has two texts |
| Spelling.AlikeRunsStayExact | backend/services/ingestion_service.py:526-746 | In every run whose jobs spell each document's id alike, in any text, no old point is left and every chunk of a ready document is indexed |
| Spelling.RunIgnoresSpelling | backend/services/ingestion_service.py:196-267 | No step reads how ids are spelt |
| TwoSpellings.OldGenerationSurvives | backend/services/ingestion_service.py:673-695 | For any document and any two texts of its id: a run that ends with the document ready, live, and a point of a generation it no longer has |
| Repositories.DocumentRepository.FindLiveByContentHashForUser | backend/db/repositories/document.py:142-167 | The owner's live document with this content, or none exists |
| Repositories.DocumentRepository.GetIngestionTargetForUser | backend/db/repositories/document.py:230-270 | The row exactly when it is this owner's and live |
| Repositories.DocumentRepository.LiveDocumentExists | backend/db/repositories/document.py:272-291 | Whether any live document has this id |
| Repositories.DocumentRepository.TransitionStatusForUser | backend/db/repositories/document.py:293-345 | The compare-and-set: the whole new table, and whether a row matched |
| Repositories.DocumentRepository.FailStaleProcessing | backend/db/repositories/document.py:347-378 | The reaper's update of the whole table, and the ids of exactly the rows it changed |
| Repositories.DocumentRepository.SoftDeleteForUser | backend/db/repositories/document.py:189-226 | Marks exactly the owner's live row, and says whether there was one |
| Repositories.DocumentPageRepository.AddForUser | backend/db/repositories/document_page.py:29-65 | Appends the pages, or raises and writes nothing for no owned document or a page stored before |
| Repositories.DocumentChunkRepository.AddMany | backend/db/repositories/document_chunk.py:88-138 | Appends the rows with their provenance, or raises and writes nothing |
| Repositories.DocumentChunkRepository.ProvenanceForDocument | backend/db/repositories/document_chunk.py:186-211 | The set of version pairs the document's chunks were made by |
| Repositories.DocumentChunkRepository.DeleteForDocument | backend/db/repositories/document_chunk.py:213-236 | Removes exactly the owned document's chunks, and counts them |
| Repositories.DocumentChunkRepository.MarkEmbedded | backend/db/repositories/document_chunk.py:238-271 | Marks exactly the owned document's chunks with the model and width, and counts them |
| Repositories.DocumentChunkRepository.ValidateForRetrieval | backend/db/repositories/document_chunk.py:273-346 | An entry for exactly the proposed chunks this user may retrieve, under the canonical text of the id |
| Worlds.World.Await | backend/services/ingestion_service.py:299-309 | Any run of others' events may pass; a cancellation sends the delivery to release its claim if it holds one, and a shielded wait is not cancelled |
| IngestionServices.IngestionService.TransitionStatus | backend/services/ingestion_service.py:993-1014 | One committed compare-and-set is one step: moved, lost, raised or cancelled, each with its own next place |
| IngestionServices.IngestionService.Fail | backend/services/ingestion_service.py:1016-1035 | `processing → failed` with the reason, or the claim was lost |
| IngestionServices.IngestionService.FailTransiently | backend/services/ingestion_service.py:1037-1064 | Fails for good on a final attempt and never raises the transient error then; otherwise back to the stage's start, and raises |
| IngestionServices.IngestionService.ReleaseAfterInterruption | backend/services/ingestion_service.py:1066-1076 | A cancelled delivery's claim is put back if it is still held, or left to the reaper |
| IngestionServices.IngestionService.StoreParsed | backend/services/ingestion_service.py:408-435 | Pages and `parsed` together or neither |
| IngestionServices.IngestionService.ProcessClaimed | backend/services/ingestion_service.py:311-343 | The parsing stage, check by check, takes the pipeline's steps and ends where its exit says |
| IngestionServices.IngestionService.ExtractVerified | backend/services/ingestion_service.py:345-406 | The same, once the bytes are the bytes validated at upload |
| IngestionServices.IngestionService.ChunkClaimed | backend/services/ingestion_service.py:437-448 | The chunking stage reads the stored pages and ends where its exit says |
| IngestionServices.IngestionService.ChunkPages | backend/services/ingestion_service.py:450-491 | Chunking and storing take the pipeline's steps and end where the exit says |
| IngestionServices.IngestionService.StoreChunks | backend/services/ingestion_service.py:496-524 | Chunks, their count and `chunked` together or none of them |
| IngestionServices.IngestionService.EmbedClaimed | backend/services/ingestion_service.py:526-565 | The embedding stage re-chunks exactly when the provenance is not the configured pair alone |
| IngestionServices.IngestionService.EmbedChunks | backend/services/ingestion_service.py:567-572 | Listing takes the pipeline's step, and what follows ends where the exit says |
| IngestionServices.IngestionService.EmbedRows | backend/services/ingestion_service.py:574-614 | So does embedding: a failing model, a wrong width and an unforeseen error each end as the source has them |
| IngestionServices.IngestionService.RecordsOf | backend/services/ingestion_service.py:777-801 | One record a chunk: its own id, its text's vector, and a payload that cites it |
| IngestionServices.IngestionService.Upsert | backend/services/ingestion_service.py:606-614 | The batch is written whole, or in part with an error |
| IngestionServices.IngestionService.IndexRecords | backend/services/ingestion_service.py:606-641 | Vectors first, and only then the commit of `ready` |
| IngestionServices.IngestionService.StoreReady | backend/services/ingestion_service.py:748-775 | `ready` and the model on every chunk together or neither |
| IngestionServices.IngestionService.Rechunk | backend/services/ingestion_service.py:643-714 | Old vectors, then new rows; afterwards the document is ready to embed, or the delivery is over where the exit says |
| IngestionServices.IngestionService.RechunkPages | backend/services/ingestion_service.py:664-714 | The chunks are made again, or the delivery is over where the exit says |
| IngestionServices.IngestionService.ReplaceGeneration | backend/services/ingestion_service.py:676-714 | The old vectors go before the rows are replaced; afterwards only the new generation is left |
| IngestionServices.IngestionService.DeleteVectors | backend/services/ingestion_service.py:676-693 | The document's vectors are deleted whole, or in part with an error |
| IngestionServices.IngestionService.ReplaceChunks | backend/services/ingestion_service.py:716-746 | Old rows go and new rows come with their count, or nothing changes |
| IngestionServices.IngestionService.RunStage | backend/services/ingestion_service.py:269-309 | Claims, runs the stage, and puts the claim back after a cancellation |
| IngestionServices.IngestionService.Admit | backend/services/ingestion_service.py:196-228 | A job whose parts disagree is rejected without touching the database |
| IngestionServices.IngestionService.CheckRow | backend/services/ingestion_service.py:211-243 | A job is rejected, skipped or sent to the stage its row is waiting for, exactly as the pipeline's admission says |
| IngestionServices.IngestionService.RunFrom | backend/services/ingestion_service.py:245-267 | Stage after stage in one delivery |
| IngestionServices.IngestionService.Ingest | backend/services/ingestion_service.py:196-267 | One delivery ends where its exit says, in a reachable state; a final attempt never raises the transient error |
| IngestionServices.IngestionService.ClaimToGiveUp | backend/services/ingestion_service.py:907-915 | Tries all three recoverable statuses, whichever matches |
| IngestionServices.IngestionService.IsProcessing | backend/services/ingestion_service.py:963-969 | Whether the owner's live row is claimed now |
| IngestionServices.IngestionService.RecordGivenUp | backend/services/ingestion_service.py:891-932 | Fails a document its final attempt could not, or leaves it as it is |
| Workers.RetryDelaySeconds | backend/ingestion/worker.py:65-67 | 2, 10, 30 and 60 seconds in turn, the first for anything earlier and the last for anything later, never shrinking |
| Workers.IngestDocument | backend/ingestion/worker.py:191-253 | A malformed payload touches nothing; the attempt is final exactly if no try is left, and a retry follows only one that is not; `ready` means exactly indexed while the jobs spell ids alike |
| Workers.ReapStaleProcessing | backend/services/ingestion_service.py:803-824 | Exactly the live claims older than the threshold become `failed`, their data and every other row unchanged |
| Recovery.ListForRecovery | backend/db/repositories/document.py:380-430 | The `limit` longest untouched live rows in the statuses asked for with all columns a job needs, in that order, none left out before one listed; refuses a claimed status |
| Recovery.RecoveredJobIsAdmitted | backend/services/ingestion_service.py:936-961 | A job made from a row passes every check of `ingest`; a row that makes none is one for which no job passes |
| Recovery.EveryStageIsRecoverable | backend/db/repositories/document.py:380-430 | The sweep looks for exactly the statuses the stages start from and failed attempts go back to |
| Recovery.IngestionQueue.Enqueue | backend/ingestion/queue.py:57-76 | Queues exactly when no job for the document is queued, and replaces none; a failing call may have queued it |
| Recovery.RecoverPending | backend/services/ingestion_service.py:826-889 | Every listed document the pass comes to ends with a job queued unless its row makes none; nothing else is queued; each of the three counts is exact; a queue that raises ends the pass there |
| Producers.RecoveryEntersThePipeline | backend/services/ingestion_service.py:936-961 | From any reached state, the job of a recovered row is a delivery that goes on to the stage the document is waiting for |
| Producers.UploadEntersThePipeline | backend/services/document_service.py:208-258 | From any reached state, the row and job of an upload are the pipeline's own events, and the delivery goes on to parsing |
| Producers.UploadBecomesReady | backend/services/document_service.py:120-264 | End to end: an upload that succeeds, of bytes that extract to as many pages as validation counted, within the limit, with some text and some chunk, followed by one delivery of the job it queued that meets no fault, ends `ready`, the uploader's, with exactly its pages, chunks and points |
| VectorStores.InMemoryVectorStore.Upsert | tests/doubles.py:117-124 | The records before the first of another width are stored, the last under each id; a width or a failure raises, and a failing call stores any part |
| VectorStores.InMemoryVectorStore.Search | tests/doubles.py:126-151 | The best `limit` of the owner's points that pass, each once, best first; no better one is left out |
| VectorStores.InMemoryVectorStore.DeleteDocument | tests/doubles.py:153-164 | Exactly the points whose payload has this document's and this owner's text go; a failing call deletes any part |
| Retrieval.ResultsAre | backend/services/search_service.py:143-172 | Results correspond one to one, in order, to the kept candidates |
| Retrieval.IsolatedUnderAnyIndex | backend/db/repositories/document_chunk.py:273-346 | For any candidate list: every result is a chunk of the user's own ready documents that are not deleted, under the active model, read from the tables, none twice, in candidate order with the first score |
| Retrieval.ReturnedIffProposedAndOwn | backend/services/search_service.py:143-172 | A chunk is returned if and only if its canonical id is proposed and the user may retrieve it |
| SearchServices.SearchService.Search | backend/services/search_service.py:101-186 | Bad queries, exactly those empty, too long or over the token budget, and failing dependencies are errors, never empty results; every result is of the user's own point, of a document the query names, with its likeness to the normalised query, at least the threshold; no more than asked for, with the service's defaults |
| SearchServices.SearchService.Resolve | backend/services/search_service.py:140-186 | The dictionary loop and the join compute exactly the specified results, for any candidates |
| SearchTheorems.SearchAgreesWithTables | backend/services/search_service.py:101-186 | In every reachable state, with room for the owner's points, the results are exactly the chunks a plain filter over the tables wants, each once with its score, best first; a document filter names documents as their jobs spell them |
| SearchTheorems.AnswerIsThePlainFilter | backend/services/search_service.py:101-186 | For a user's query in its own fields, in every reachable state with room for the user's points: the answer is exactly the live, ready, own, asked-for chunks under the service's model that are as like the query as asked, each once with its text and score, best first |
| SearchTheorems.LaterSearchAgrees | backend/services/search_service.py:118-172 | The index searched at one moment of a run and the tables read at any later one: every result is right by the later tables, and every chunk wanted at the search is returned with its score unless its document has been deleted since |
| SearchTheorems.NothingCutOff | tests/doubles.py:126-151 | With a limit of at least the owner's points, every point that passes is listed |
| ReadingOrder.Order | document_processing/pdf_parser.py:102-140 | The loop's order is the band-by-band specification, and a permutation of its input |
| ReadingOrder.OrderReads | document_processing/pdf_parser.py:102-140 | In coordinates: a block reaching past the middle by more than 2% of the width on both sides is read after all above it and before all below it; blocks of one column are read top to bottom; a block of the right column before one of the left only if such a block stands between them |
| ReadingOrder.SortedIs | document_processing/pdf_parser.py:131-131 | Sorting keeps the blocks and puts them in (y0, x0) order |
| ReadingOrder.SortedAgain | document_processing/pdf_parser.py:125-129 | Sorting a band again when it closes changes nothing |
| ReadingOrder.BandIs | document_processing/pdf_parser.py:125-129 | Between barriers all left blocks come before all right ones, each side ascending |
| ReadingOrder.BarrierSeparates | document_processing/pdf_parser.py:131-134 | Every page-crossing block splits the order into that of what precedes it and that of what follows |
| ReadingOrder.BarrierIsReadInPlace | document_processing/pdf_parser.py:131-134 | A page-crossing block is read at its own rank: what sorts before it is read before it, what sorts after it after |
| ReadingOrder.OrderIsCanonical | document_processing/pdf_parser.py:102-140 | With distinct (y0, x0) the result does not depend on the input's order |
| Sections.BodyFontSize | document_processing/sections.py:83-97 | The size set in most characters, the smaller on a tie; zero without text |
| Sections.SectionsDivide | document_processing/sections.py:129-155 | Sections hold every block once in order with its page, none is empty, a block is a heading exactly when it is first in a titled section, and only the first may be untitled |
| Sections.DetectSections | document_processing/sections.py:129-155 | The loop computes those sections |
| ChunkerTheorems.HeadingsOpenSections | document_processing/sections.py:129-155 | Every block is in a section at its own place in the document, and is first in a titled section exactly if it is a heading by its own font size and the document's body size, whose text is then the title |
| Windows.WindowRanges | document_processing/chunker.py:122-140 | The loop yields the closed form: one window, and one more for each started step beyond the first `size` tokens |
| Windows.CountsWindows | document_processing/chunker.py:132-139 | The loop stops at the window the count says, because the overlap is below the size |
| Windows.WindowsTile | document_processing/chunker.py:132-139 | All but the last window hold `size` tokens, neighbours share exactly `overlap`, each later one adds a token, and they span all tokens |
| Windows.WindowsRebuild | document_processing/chunker.py:132-139 | Dropping each later window's first `overlap` tokens rebuilds the token sequence |
| Windows.WindowsAreGood | document_processing/chunker.py:122-140 | Windows are within budget, start and end ever later, and cover every character that is not whitespace |
| References.EntriesTile | document_processing/chunker.py:152-159 | The entry bounds tile the text from its start to its end |
| References.GroupsPack | document_processing/chunker.py:161-184 | The greedy grouping is a grouping of consecutive entries within budget, an oversize entry alone |
| References.PackingIsOptimal | document_processing/chunker.py:161-184 | No such grouping has fewer groups |
| References.FewestRanges | document_processing/chunker.py:161-184 | Entries that fit get the fewest ranges of any grouping within budget |
| References.RangesSplit | document_processing/chunker.py:167-175 | An oversize entry is windowed on its own, and what lies on either side is packed apart |
| References.FittingEntryIsWhole | document_processing/chunker.py:176-184 | An entry within budget lies whole in one range |
| References.RangesKeepEntriesWhole | document_processing/chunker.py:161-184 | Every range is a run of whole entries within budget, counted by their sum, or part of one oversize entry |
| References.KeptIs | document_processing/chunker.py:185-189 | The filter drops exactly the blank ranges |
| References.PackedIsGood | document_processing/chunker.py:161-184 | Ranges are within budget, ordered, and cover every character that is not whitespace |
| References.ReferencesAreGood | document_processing/chunker.py:144-189 | So are the ranges `_reference_ranges` returns, fallback and filter included |
| References.ReferenceRanges | document_processing/chunker.py:144-189 | The loop over open groups computes exactly that packing |
| Chunker.SectionText | document_processing/chunker.py:192-204 | The loop joins the blocks and records where each was put |
| Chunker.BlockIsThere | document_processing/chunker.py:192-204 | Every block stands in the section's text verbatim, where it was recorded |
| Chunker.BlocksAreSeparated | document_processing/chunker.py:192-204 | The first block starts the text, the last ends it, and exactly a blank line stands between two |
| Chunker.CharacterIsInBlock | document_processing/chunker.py:192-204 | Every character that is not whitespace is in some block |
| Chunker.PagesAre | document_processing/chunker.py:207-216 | The pages returned are the lowest and highest of the blocks the range touches |
| Chunker.NoPagesTouched | document_processing/chunker.py:207-216 | A range that touches no block has the page of the first one, or page one |
| Chunker.ChunkDocument | document_processing/chunker.py:87-118 | The loops compute exactly the specified chunks |
| ChunkerTheorems.EveryChunk | document_processing/chunker.py:87-118 | Chunks are numbered without a gap, hold one to `chunk_size` tokens, are not blank, and quote their section verbatim |
| ChunkerTheorems.NothingIsLost | document_processing/chunker.py:87-118 | Every character of every block that is not whitespace is in some chunk, at its own place, and the chunk's pages include the block's |
| SectionChunks.EntryIsInOneChunk | document_processing/chunker.py:144-189 | In a section with a reference title and two entries or more, every entry within `chunk_size` tokens lies whole in exactly one chunk |
| SectionChunks.ChunkHoldsEntries | document_processing/chunker.py:144-189 | Every chunk of such a section is a run of whole entries whose counts add up to its own, within budget, or a token window of one entry that does not fit |
| SectionChunks.ChunkIsWindow | document_processing/chunker.py:94-98 | Every chunk of any other section, or of one with fewer than two entries, is one of the section's token windows |
| SectionChunks.WindowIsChunk | document_processing/chunker.py:94-113 | And every window that holds text is a chunk |
| ChunkerTheorems.PagesAreTight | document_processing/chunker.py:192-216 | With ascending pages, a chunk's pages are those of the first and last block it draws from |
| ChunkerTheorems.PagesDoNotGoBack | document_processing/chunker.py:192-216 | Both pages are non-decreasing over the whole chunk sequence, across sections too |
| ChunkerTheorems.ChunkersAreGood | document_processing/chunker.py:87-118 | A pipeline of these chunkers meets the pipeline's assumption |
| DocumentServices.Storage.Put | backend/storage/local.py:65-98 | Creates the file only if it is absent, and says whether it did; a failing call may have stored it |
| Uploads.FilesKeptIff | backend/services/document_service.py:197-299 | Whatever fails, and whatever others do between any two calls as long as they leave every live row its file: after an upload every live row has its file, one live row per owner and content, if and only if the upload does not remove a file it created that a live row has come to be stored at, and does not leave a row it inserted after its file had gone |
| Uploads.AllOrNothing | backend/services/document_service.py:120-159 | Without overlap: a new row, its file and its job, exactly; or the document already there and nothing changed; or an error with live rows and files as before, unless undoing failed too; no file that was there before is lost, and nothing but this upload's own key, row and job is touched |
| Uploads.UploadIsLawful | backend/services/document_service.py:120-264 | Under any faults and any overlap, one live row per owner and content, and every file under its own hash |
| Uploads.AnswerIs | backend/services/document_service.py:185-264 | Which of the five answers, from what fails and from whether the content is new at the check, at the insert and at the lookup of the winner |
| Uploads.ExistingIsLive | backend/services/document_service.py:185-230 | An upload answered with an existing document answers with the owner's live one of this content and has changed nothing of what it found |
| Uploads.CreatedIsQueued | backend/services/document_service.py:249-264 | A document created has a job queued, its own unless another was first, and the job of its row passes every check of the worker |
| Uploads.CreatedIs | backend/services/document_service.py:197-264 | The row, column by column, the file and the job of a document created: the uploader's, pending, at the key and with the hash, type and page count of the validated bytes |
| Uploads.UndoneIsNotAdmitted | backend/services/document_service.py:266-299 | After an undone upload no job for the document passes the checks, even if the queue took it before it failed |
| Uploads.OverlapLosesAFile | backend/services/document_service.py:220-236 | Two uploads of one content: the second is answered as created, the first fails to insert, and the second's live pending document has no file |
| Uploads.UndoLosesAFile | backend/services/document_service.py:288-299 | The same when the first was recorded but not queued: the second comes between the commit of the undoing and the removal of the file |
| Uploads.LateInsertLosesAFile | backend/services/document_service.py:197-219 | The same when the second found the file, and inserts its row after the first has removed it |
| Uploads.NewRowIsLive | backend/services/document_service.py:249-258 | The job queued for the new row passes every check of the worker |
| Uploads.DuplicateIff | backend/services/document_service.py:220-230 | The index refuses a row if and only if a live document of the same owner has the same content |
| Uploads.RowUndone | backend/services/document_service.py:266-299 | After undoing, the live rows are the old ones and no job for the document passes the checks |
| Uploads.TakingKeepsIff | backend/services/document_service.py:301-322 | Taking a file away leaves every live row its own if and only if no live row is stored there |
| DocumentServices.DocumentService.UploadAndProcess | backend/services/document_service.py:120-264 | Ends with the answer and the stores the specification says, whatever fails and whatever others do; a document created is the upload, column by column, with its file and job; every live row keeps its file exactly under the condition of `FilesKeptIff`, and always without overlap |
| DocumentServices.DocumentService.StoreFile | backend/services/document_service.py:185-206 | The owner's live document with this content, or the file stored and whether this call created it |
| DocumentServices.DocumentService.Record | backend/services/document_service.py:208-264 | From the insert on, with others acting before the lookup, the enqueue, the undoing and the removal |
| DocumentServices.DocumentService.AnswerWithWinner | backend/services/document_service.py:222-232 | The winner of the insert if it is still live, or the file taken back and an error |
| DocumentServices.DocumentService.UndoUnqueuedUpload | backend/services/document_service.py:266-299 | Soft-deletes the row and then, after whatever others do, takes back the file; or changes nothing |
| DocumentServices.DocumentService.Discard | backend/services/document_service.py:301-322 | Removes the file only if this upload created it |
| DocumentServices.DocumentService.DeleteDocument | backend/services/document_service.py:341-372 | Takes away at most the one owned live row, and never a file |

## Left out

- UploadAndProcess: keeps one clock reading for the whole upload; a stored row's timestamps within one upload are not told apart.
- RecoverPending: claims what one pass does; rows that can make no job may fill every batch, so eventual recovery of every document is not promised by the code.
- RecordsOf: does not model the `ValueError` for a chunk row without pages, which the columns no longer allow.
- Search: does not model an empty owner, which a principal never has; equal scores may come in any order, where the double keeps insertion order.
- AnAttemptSettles: does not cover calls that raise what the service does not catch, such as a database that fails during a claim; those go to the given-up recorder and are in the runs of the other theorems.
- EveryChunk: counts a packed reference chunk's tokens as the sum of its entries' counts, as the code does, not by tokenizing the chunk again.
- Commits that report an error after taking effect, store writes that land after their call returned, and rows edited by hand.
- The key between chunk fields and their UUID: field values that contain the separator of the name string are taken not to collide.
- The order of SQL result sets, beyond the order the code asks for: pages and chunks are kept in reading order in the model's rows.
- `ensure_collection` and `refuse_chunks_the_model_cannot_read`: single comparisons at startup.
- Page extraction itself, text cleaning, the heading and reference patterns, Unicode normalisation, hashing and UUIDs: functions the model is given.
- Upload validation: the model starts from its verdict.
- HTTP routes, schemas, authentication, settings, logging, migrations, the frontend, agents and MCP tools: no state or arithmetic of their own.
