# Lunefetch, verified

A Dafny model of the parts of the Lunefetch download manager where a mistake would cost a user a file, a queue place or a
browser download, with proofs about whole runs.

- **Download engine** (`Engine`, `EngineInvariant`, `EngineTheorems`, `EngineLedger`, `EngineKills`, `EngineHistories`,
  `EngineExamples`, `Exchanges`, `Downloader`).
  A download of known size is cut into byte ranges, one worker per range writes into a shared part file, and progress is
  kept in memory, in the database and in snapshots that may land late. `Engine` is a step system: responses, read sizes,
  errors, timing, cancellation, a cut or deleted part file and process kills are arguments of the steps, so every
  interleaving of every history of runs is a sequence of steps. The class `Downloader` has the source's fields and loops;
  its `Valid()` says the fields stand for a state the step system reaches, so every theorem about reachable states holds of
  the object. `Exchanges` says what an attempt, a worker and a run come to, from the answers' header fields and from how
  their bodies arrive, and the methods are proved to come to exactly that. A download of unknown size is the class in `UnknownSize`.
- **Chunking and Content-Range** (`Chunking`, `ContentRange`, `Decimal`).
- **Storage** (`Tables`, `ChunkTable`, `Storage`, `StateManager`). The two tables are a map and a sequence of rows that the
  methods of the class update in place, one statement at a time, with the progress trigger fired row by row.
- **Queue** (`Scheduler`, `QueueRuns`, `Manager`). `QueueRuns.Step` says what each operation of the application does to
  any table. The class `Manager` is proved to take such steps, and from a table in order they are functions on queue
  states. The promises are proved over every run, overtaken deletes and process exits included.
- **Worker lifecycle** (`Lifecycle`, `DownloadsPage`). Who holds a queue slot, as a protocol with one step per critical
  section that asks nothing of the table, and the class whose methods take those steps.
- **Browser handoff** (`Handoff`, `HandoffMatching`, `HandoffTurns`, `HandoffFates`, `HandoffHistory`). The interception table of the
  extension's controller, histories of clock-stamped events, and the asynchronous turns of the event loop.
- **Download view** (`View`) and **adding a download** (`AddDownload`).

The server is a sequence of representations of one resource: `content(v)` is version v. `Honest` is what RFC 9110 asks of
it (sections 13.1.5, 14.1.2, 14.2, 14.4 and 15.3.7). `Sound` asks for a positive size, a partition into ranges, and
either a representation that never changes or a validator that matches one version only.

Four promises turned out not to hold everywhere. Each comes with a history in which it fails and with the exact
condition.

- **A success leaves the remote bytes, across process kills.** When the part file has been deleted or cut, the next run
  lowers the credit and restores the file's length before the database hears of it. A kill in that run makes the run after
  it credit bytes nobody fetched, and publish zeros (`KillPublishesZeros`, `SuccessOnNobodysBytes`). At any moment of any
  run, a chunk survives the kill exactly when the bytes from its frontier up to the database's claim agree with its
  version; they are zero, or what a failed write left there (`KillAtAnyMoment`). Against a fixed representation that is:
  exactly when the bytes no failed write landed are zero remotely (`KillAgainstFixed`); right after `Begin`: exactly when
  the lost bytes are (`KillAfterBegin`). A run that lowered nothing survives a kill at any moment
  (`UnloweredKillIsSpared`).
- **A single-chunk success is a whole version.** An answer of undeclared length that is too long fails its attempt after
  the chunk has been credited in full, and the retry reports success (`UndeclaredLengthCutsTheFile`). A success is whole
  exactly when its version has the declared length (`SingleChunkWholeIff`), and every success of a download is whole
  exactly when no version is longer than the declared size (`AlwaysWholeIff`). Accepting only answers that commit to a
  length is enough (`SingleChunkIsWholeVersion`).
- **Every operation keeps the queue in order.** Deleting a download is three statements with no common lock. When the
  minute scheduler puts the row into the queue between the first and the second, the second leaves a live queued row
  without a position (`DeleteOvertaken`, `OvertakenExample`). An operation keeps the queue in order exactly when it is not
  a Remove of a waiting row (`NextKeeps`). In every run, whatever comes between those statements, all rows but those of
  the deletes in flight are in order, no running download waits, and nobody waits while a slot is free (`RunKeeps`). A row
  without a position is started after everybody else (`StartsInOrder`), but moving any row numbers it first
  (`MoveMendsAhead`). Its soft delete puts the table in order again (`DiscardMends`). The account of slots does not depend
  on any of this.
- **What is on record is in the file, for a download of unknown size.** The file is cut before the first byte arrives, and
  the credit of an earlier run stays until bytes are stored (`CreditOutlivesFile`). After a 2xx answer, the record does
  not exceed the file exactly when some bytes were stored or the old credit is at most what a failed write left
  (`Sequential.Start`).

`MoveThereAndBack` is a further promise with an exact condition.

`dafny verify dfyconfig.toml` checks everything.

## Model

| member | source | states |
|---|---|---|
| EngineTheorems.SuccessMeansRemoteBytes | internal/core/downloader.go:446-582 | against a fixed representation, after any history of runs, interleavings, retries, refused answers, pauses, kills that spare the database, and cut or deleted part files, a Start that returns nil leaves exactly the remote bytes |
| EngineTheorems.ResumeNeverSkips | internal/core/downloader.go:493-502 | right after reconcile and truncate, everything below the first offset a chunk will ask for is on disk and is the byte of the version it came from |
| EngineTheorems.ChunkFromOneVersion | internal/core/downloader.go:807-834 | with a usable validator and an honoured If-Range, all credited bytes of a chunk come from one representation, across all attempts and runs |
| EngineTheorems.SingleChunkFromOneVersion | internal/core/downloader.go:807-928 | a successful single-chunk file is a prefix of one representation |
| EngineLedger.SingleChunkWholeIff | internal/core/downloader.go:842-925 | and it is that whole representation exactly when the representation has the declared length |
| EngineLedger.SingleChunkIsWholeVersion | internal/core/downloader.go:842-860 | which is so when every accepted answer commits to a length |
| EngineHistories.AlwaysWholeIff | internal/core/downloader.go:812-925 | for any single-chunk download, every success is one whole version exactly when no version is longer than the declared size |
| EngineHistories.LongerVersionIsCut | internal/core/downloader.go:812-925 | for any version at least as long as the declared size, a history that publishes its declared-length prefix, a buffer at a time |
| EngineExamples.UndeclaredLengthCutsTheFile | internal/core/downloader.go:812-925 | a concrete history in which an over-long answer of undeclared length fails, the retry finds nothing left, and success publishes a strict prefix |
| EngineTheorems.LateSnapshotIsBacked | internal/core/downloader.go:957-999 | every size a speed tick has read and not yet written down is covered by genuine bytes |
| EngineTheorems.VerifyAcceptsCompleted | internal/core/downloader.go:561-581 | without file errors, Start returns nil exactly when it was not cancelled and every chunk is completed |
| EngineTheorems.CompletedIsVerified | internal/core/downloader.go:622-642 | completed chunks account for every byte, so verifyOnDisk cannot turn the run down |
| EngineTheorems.UnloweredKillIsSpared | internal/core/downloader.go:598-618 | while reconciliation has lowered nothing, a process kill at any moment keeps the invariant |
| EngineKills.KillAtAnyMoment | internal/core/downloader.go:493-502 | a kill at any moment of a run: the next run credits what is on record, and that is backed iff the bytes from the frontier up to it agree with the chunk's version; each of them is zero or landed by a failed write |
| EngineKills.KillAgainstFixed | internal/core/downloader.go:493-502 | against a fixed representation, iff the bytes that no failed write landed are zero remotely |
| EngineKills.OverclaimIsVestige | internal/core/downloader.go:493-502 | what the database claims beyond a chunk's frontier is zero on disk, or was put there by a failed write of this run |
| EngineHistories.KillPublishesZeros | internal/core/downloader.go:493-502 | for any single-chunk download, a history with one kill in which Start returns nil on a file of zeros |
| EngineHistories.KillUnbacks | internal/core/downloader.go:493-502 | a reached state in which a kill right after Begin leaves a chunk credited and not backed |
| EngineExamples.SuccessOnNobodysBytes | internal/core/downloader.go:493-502 | at a concrete one-byte download: after one kill, Start returns nil on a file that no version of the resource begins with |
| EngineExamples.LostByteIsCredited | internal/core/downloader.go:493-502 | the unbacked credit at that download |
| EngineTheorems.KillAfterBegin | internal/core/downloader.go:493-502 | after a kill right after the truncate, the next run credits the old claim in full, and it is backed iff the lost bytes are zero remotely |
| EngineTheorems.LostBytesAreZero | internal/core/downloader.go:500-502 | extending a cut file keeps a credited range genuine iff the bytes past its old end are zero |
| EngineTheorems.RunsKeep | internal/core/downloader.go:446-582 | the engine invariant holds after every history |
| EngineTheorems.ReachedOk | internal/core/downloader.go:446-582 | every state a history reaches satisfies the engine invariant |
| EngineInvariant.StepKeeps | internal/core/downloader.go:446-999 | every single step of workers, ticker, user and disk keeps it |
| EngineInvariant.AcceptedOk | internal/core/downloader.go:836-860 | accepting an answer ties the chunk to the version being served, or keeps it on the version it has |
| EngineInvariant.AcceptedIsServed | internal/core/downloader.go:842-860 | an answer that passes the checks carries the bytes of the version being served, from the requested offset |
| EngineInvariant.ResumeStaysOnVersion | internal/core/downloader.go:819-834 | a resumed request can only be answered from the version the credited bytes came from |
| EngineInvariant.PutOk | internal/core/downloader.go:895-900 | a write extends the genuine prefix of its own chunk and leaves every other chunk alone |
| EngineInvariant.BeginOk | internal/core/downloader.go:493-502 | loading, reconciling and truncating turns claims about any file into backed credit |
| EngineInvariant.LandOk | internal/core/downloader.go:994-996 | a late snapshot may lower what is on record but never over-claims |
| EngineInvariant.KillOk | internal/core/downloader.go:598-618 | a kill is harmless when no recorded size exceeds what the run credits |
| EngineLedger.NoOffsetWrittenTwice | internal/core/downloader.go:862-900 | within one run, over all attempts and failed writes included, writes stay inside their chunk, writes of different chunks never meet, and two that meet belong to one chunk and the earlier one failed |
| EngineLedger.SuccessWritesTheRest | internal/core/downloader.go:588-618 | the successful writes of a successful run add up to exactly the total size minus the bytes credited after reconciliation |
| EngineLedger.StepKeepsLedger | internal/core/downloader.go:862-918 | the account of writes, failed ones included, is kept by every step |
| DownloaderModel.Downloader.constructor | internal/core/downloader.go:90-126 | a new object stands for the fresh engine state |
| DownloaderModel.Downloader.LoadProgress | internal/core/downloader.go:91-106 | the progress table and total read from the rows on record |
| DownloaderModel.Downloader.ReconcileDiskProgress | internal/core/downloader.go:588-618 | the loop lowers each credit to what the file holds and recomputes the total |
| DownloaderModel.Downloader.Begin | internal/core/downloader.go:446-502 | start-up takes the engine's Begin step and no other |
| DownloaderModel.Downloader.VerifyOnDisk | internal/core/downloader.go:622-642 | true iff the credits add up to the size and the file has that length |
| DownloaderModel.Downloader.FlushProgress | internal/core/downloader.go:419-444 | afterwards the rows hold every chunk's credit, and a chunk downloading or retrying is on record as paused, any other as it is |
| DownloaderModel.Downloader.Finish | internal/core/downloader.go:543-582 | flush and verdict: success iff not cancelled and all completed, and then the file is the remote bytes |
| DownloaderModel.Downloader.TakeSnapshots | internal/core/downloader.go:966-991 | a tick's snapshot of the downloading chunks and the running total |
| DownloaderModel.Downloader.EmitSnapshot | internal/core/downloader.go:994-996 | a snapshot taken earlier overwrites the row of its chunk, whatever has happened since |
| DownloaderModel.Downloader.IfRangeHeader | internal/core/downloader.go:817-834 | nothing without credit; otherwise the ETag if it is strong, and if it is weak or missing the Last-Modified date |
| DownloaderModel.Downloader.Check | internal/core/downloader.go:842-860 | true iff status, Content-Range and Content-Length are acceptable for the request |
| DownloaderModel.Downloader.Request | internal/core/downloader.go:807-860 | an answer is read exactly if it is acceptable; otherwise the attempt fails with nothing changed |
| DownloaderModel.Downloader.StoreBytes | internal/core/downloader.go:895-897 | the bytes land at the worker's offset and nothing else moves |
| DownloaderModel.Downloader.CreditBytes | internal/core/downloader.go:898-905 | the credit becomes exactly what has been written of the chunk |
| DownloaderModel.Downloader.ReadOnce | internal/core/downloader.go:868-918 | one turn of the read loop: how many bytes it takes, where they land, and that it fails exactly on cancellation, stall, write error or a short body |
| DownloaderModel.Downloader.ReadBody | internal/core/downloader.go:862-928 | what is delivered before anything else happens is in its place in the file and credited; it succeeds exactly when that is the whole body, well ended, and as long as the range |
| DownloaderModel.Downloader.CheckBoundary | internal/core/downloader.go:919-927 | success iff the body ends with the range |
| DownloaderModel.Downloader.DownloadChunk | internal/core/downloader.go:807-928 | an attempt succeeds exactly when nothing is lacking, or an answer comes that may be read by its header fields, is as long as what is lacking, ends well and is delivered; what it got is in the file and credited either way, and nothing outside its range changes |
| DownloaderModel.Downloader.Settle | internal/core/downloader.go:736-784 | completed on success, retrying while attempts are left, failed on the last, untouched when cancelled |
| DownloaderModel.Downloader.Backoff | internal/core/downloader.go:761-768 | the wait between attempts ends in the next attempt unless cancelled |
| DownloaderModel.Downloader.DownloadChunkWithRetry | internal/core/downloader.go:727-784 | unless cancelled, the worker completes its chunk exactly when one of its retries+1 attempts fetches what the ones before left lacking, fails otherwise, and is credited with what all of them got; the server may move to a later version before each |
| DownloaderModel.Downloader.Start | internal/core/downloader.go:446-582 | success iff no file operation failed, it was not cancelled, and every chunk's exchanges fetch what reconciliation found lacking; it succeeds if every worker has one serving exchange among its attempts; every credit is on record, and a success on a fixed representation is the remote bytes |
| Exchanges.AcceptsIsAdmissible | internal/core/downloader.go:842-860 | the header checks let exactly these answers pass: a 206 whose Content-Range spells the requested range and total in numerals, or a 200 to a request for the whole file in one chunk, with no length or the right one |
| Exchanges.OneServingIsEnough | internal/core/downloader.go:727-784 | one exchange that serves the chunk, among as many as there are attempts, is enough, whatever was got before |
| Exchanges.ServingIsFetchable | internal/core/downloader.go:446-582 | and one such exchange per worker completes the download, whatever is on record and on disk |
| Exchanges.PlainServes | internal/core/downloader.go:807-928 | a 206 that names its range and declares no length, delivered byte by byte, serves every request of its chunk |
| Exchanges.NobodyAnswers | internal/core/downloader.go:727-784 | without an answer that may be read nothing is completed and nothing credited |
| Exchanges.CompletedIsWhole | internal/core/downloader.go:727-784 | a completed chunk is credited with its whole length |
| Exchanges.EndingIs | internal/core/downloader.go:727-784 | how the retry loop ends, attempt by attempt, is what one successful attempt among them decides |
| Exchanges.EnoughIsAll | internal/core/downloader.go:868-918 | deliveries alone get a body across if there are enough of them, however small |
| UnknownSize.Sequential.StartUnknownSize | internal/core/downloader.go:657-725 | success iff a 2xx body ends properly and is not empty, and then the file is exactly that body whatever it held before; after a 2xx failure the credit is what was stored if anything was, and otherwise the old one over an emptied file |
| UnknownSize.Sequential.Start | internal/core/downloader.go:477-489 | the credit and a resumable status go on record whatever happened; after a 2xx answer the credit is covered by the file iff bytes were stored or the old credit is at most what a failed write left |
| UnknownSize.CreditOutlivesFile | internal/core/downloader.go:675-714 | two bytes on record, an answer cut before its first byte: an empty file with two bytes on record |
| Chunking.CalculateChunks | internal/core/downloader.go:1331-1373 | min(n, size) consecutive ranges that partition the file, all arithmetic inside int64 |
| Chunking.CutRanges | internal/core/downloader.go:1350-1372 | the i-th range is cut exactly at its boundary, so the fix-up of the last one changes nothing |
| Chunking.BalancedCut | internal/core/downloader.go:1350-1372 | the cut is a partition whose lengths differ by at most one |
| Chunking.BoundaryEnd | internal/core/downloader.go:1351-1371 | quotient and remainder boundaries end exactly at the size |
| Chunking.PartitionCovers | internal/core/downloader.go:1331-1373 | every offset of the file lies in some range |
| Chunking.PartitionOrdered | internal/core/downloader.go:1331-1373 | ranges are disjoint and in order |
| ContentRange.RoundTrip | internal/core/downloader.go:930-955 | printing bytes s-e/t and parsing returns (s, e, t) for every range below 2^63 |
| ContentRange.AcceptedForm | internal/core/downloader.go:930-955 | a header is accepted iff it is three numerals in order between the fixed separators |
| Decimal.ParsePrint | internal/core/downloader.go:942-950 | a printed non-negative int64 parses back |
| Tables.QueuedRowsArePositioned | internal/storage/state.go:419-448 | live queued rows have positive, pairwise different positions |
| Tables.EntersQueue | internal/storage/state.go:419-433 | a row enqueued behind the highest position comes last |
| Tables.LeavesQueue | internal/storage/state.go:438-448 | a row that leaves the queue disturbs nobody's order |
| Tables.InterruptedKeepsOrder | internal/storage/state.go:327-335 | pausing the interrupted rows leaves the queue in order |
| Storage.MovedAt | internal/storage/state.go:560-590 | a move puts the row at the clamped target and the row that was there in its old place |
| Storage.MovedIsMovedBy | internal/storage/state.go:554-590 | a row moved by delta changes places with the one delta places further on, or with the first or last one when that is past the edge; at the edge nothing changes |
| Storage.MoveThereAndBack | internal/storage/state.go:526-591 | up then down restores the queue iff the first move was not stopped at the edge or the queue has one row |
| Storage.ListingIsQueue | internal/storage/state.go:488-491 | with positions in order, ordering by position has one result, the queue |
| Storage.QueuedSuffixIsQueue | internal/storage/state.go:678-688 | the queued rows at the end of ListDownloads are the queue, in order |
| Storage.RenumberedInOrder | internal/storage/state.go:515-523 | renumbering a listing puts the table in that order |
| Storage.SwapIsMoved | internal/storage/state.go:560-590 | the two updates exchange exactly the rows at p and the clamped target |
| StateManagerModel.StateManager.NextInQueue | internal/storage/state.go:462-485 | some live queued row no other comes before, or none when there is none: the lowest position, rows without one last, and the oldest among equals |
| StateManagerModel.StateManager.MarkDownloading | internal/storage/state.go:438-448 | the row, if there is one, becomes downloading without a position; nothing else changes |
| StateManagerModel.StateManager.UpdateDownloadStatus | internal/storage/state.go:337-343 | one row's status, nothing else |
| StateManagerModel.StateManager.SetQueuePosition | internal/storage/state.go:405-411 | one row's position, nothing else |
| StateManagerModel.StateManager.EnqueueDownload | internal/storage/state.go:419-433 | the row becomes queued at one more than the highest live queued position, or at 1 |
| StateManagerModel.StateManager.ShiftQueuePositions | internal/storage/state.go:488-524 | positions become 1..N in the old order, nothing else changes, from any table |
| StateManagerModel.StateManager.MoveQueuePosition | internal/storage/state.go:528-591 | from any table: positions 1..N in the listed order, except that the row has changed places with the one delta places further on, or with the one at the edge it would have passed; only positions change |
| StateManagerModel.StateManager.ReconcileInterrupted | internal/storage/state.go:327-335 | exactly the live rows left downloading become paused, nothing else changes, the queue keeps its order |
| StateManagerModel.StateManager.UpdateChunkProgress | internal/storage/state.go:311-325 | the chunk with that number gets the size and status, if there is one, the download's total moves by the difference, and every other chunk and row is as it was |
| StateManagerModel.StateManager.ResetProgress | internal/storage/state.go:728-760 | an error for a missing or deleted row, otherwise no progress in either table, every chunk pending, and the other downloads untouched |
| StateManagerModel.StateManager.DeleteWithFile | internal/storage/state.go:766-793 | soft delete with no progress left to resume from |
| StateManagerModel.StateManager.DeleteDownload | internal/storage/state.go:715-722 | one row goes to history with its chunks, and out of the queue; the others keep their order |
| StateManagerModel.StateManager.RestoreDownload | internal/storage/state.go:830-844 | a deleted row comes back paused and out of the queue, a live one is left alone, the queue keeps its order |
| StateManagerModel.StateManager.PurgeDeleted | internal/storage/state.go:846-857 | purged rows go, and exactly their chunks with them |
| StateManagerModel.StateManager.CreateDownloadWithChunks | internal/storage/state.go:217-250 | a fresh id whose chunks are numbered 0..n-1 with the given bounds, or an error that changes nothing |
| StateManagerModel.StatementKeeps | internal/storage/state.go:172-180 | a row-by-row update with the trigger keeps every total equal to its sum, every chunk a parent, every index in place |
| StateManagerModel.ResetKeeps | internal/storage/state.go:735-757 | the same after a multi-row reset |
| StateManagerModel.PurgeKeeps | internal/storage/state.go:846-857 | the same after a cascading purge |
| StateManagerModel.CreateKeeps | internal/storage/state.go:226-245 | the same after a creation |
| ChunkTable.ProgressOfOne | internal/storage/state.go:311-325 | an update of one chunk's progress changes that chunk of that download, and its sum by the difference |
| ChunkTable.ResetOfOne | internal/storage/state.go:748-757 | a reset leaves the download's chunks pending without progress, and those of the others alone |
| ManagerModel.Manager.TryStart | internal/queue/manager.go:47-74 | starts a live row at once iff a slot is free, and then the row is downloading and out of the queue; otherwise lines it up behind the highest position; a missing or deleted row changes nothing; no other row changes, every start accounted for; a step on any table, the function on one in order |
| ManagerModel.Manager.EnqueueScheduled | internal/queue/manager.go:92-109 | clears the time, then starts iff a slot is free, the row marked downloading, or lines up; a step on any table, the function on one in order |
| ManagerModel.Manager.OnDone | internal/queue/manager.go:78-89 | releases a held slot once and refills, what it starts marked downloading; the row the slot was taken from only loses its position; a slot not held changes nothing; rows that were not waiting keep their status |
| ManagerModel.Manager.SetMaxConcurrent | internal/queue/manager.go:34-42 | the limit is n, or one when n is less, and free slots are filled with rows marked downloading |
| ManagerModel.Manager.Remove | internal/queue/manager.go:120-127 | an inactive row loses its position; a running one keeps everything |
| ManagerModel.Manager.DrainQueue | internal/queue/manager.go:158-177 | terminates from every state of the table, starting nothing twice and touching only waiting rows, always the row NextInQueue gives; what it starts is marked downloading; from an ordered table is exactly Fill |
| Scheduler.FillStartsTheFirstFree | internal/queue/manager.go:158-177 | a drain starts precisely the first min(free slots, N) rows of the queue, in order, each once |
| Scheduler.NextKeeps | internal/queue/manager.go:34-177 | an operation of the application keeps the table in order, no active id waiting, and nobody waiting while a slot is free, exactly when it is not a Remove of a waiting row |
| QueueRuns.RunKeeps | internal/queue/manager.go:34-177 | after every run of the application, overtaken deletes and restarts included: all rows but those of deletes in flight are in order, no running download waits, nobody waits while a slot is free; with no delete in flight the whole table is in order |
| QueueRuns.StepSettles | internal/queue/manager.go:34-177 | every operation, from any table a run can leave, keeps live queued positions apart, running downloads from waiting, and everybody from waiting while a slot is free |
| QueueRuns.SettledIsOrderedIff | internal/storage/state.go:419-448 | such a table is in order iff no live queued row lacks a position |
| QueueRuns.LooseOnlyByRemove | internal/queue/manager.go:120-127 | a row loses its position in the queue only to a Remove that finds it waiting; its soft delete, a start, an enqueue or any Move ends that |
| QueueRuns.PlaceKept | internal/queue/manager.go:34-177 | under every operation but a Move, whoever waits afterwards has the position he had, unless it was his own Remove; a newcomer comes in behind everybody |
| QueueRuns.RunKeepsPlace | internal/queue/manager.go:34-177 | and so over every run, restarts included, for as long as he waits |
| QueueRuns.StartsInOrder | internal/queue/manager.go:158-177 | from any such table, a download is started only if nobody left waiting was before it; one without a position only if nobody with one is left |
| QueueRuns.WithinLimit | internal/queue/manager.go:34-177 | from any table at all, the number of running downloads only grows to a value within the limit |
| QueueRuns.StartsAreMarked | internal/queue/manager.go:47-177 | whatever an operation starts, from any table, has its row downloading, without a position, and otherwise as it was (its time cleared by EnqueueScheduled) |
| QueueRuns.RecoveryMarksStarts | internal/ui/layout/desktop.go:476-480 | and so has whatever recovery starts |
| QueueRuns.RecoverySettles | internal/ui/layout/desktop.go:476-480 | after a restart from any table with positions apart, recovery settles it, adds no row without a position, and marks only rows just started as downloading |
| QueueRuns.OrderedStepIsNext | internal/queue/manager.go:34-177 | from a table in order, what the statements do is the scheduler's function, whatever ties and maxima they meet |
| QueueRuns.MoveMendsAhead | internal/storage/state.go:488-524 | a Move gives every live queued row a position again, and puts the row that had none in front of those that had |
| Scheduler.RemoveKeepsIff | internal/queue/manager.go:120-127 | Remove keeps the invariant iff the row runs or does not wait |
| Scheduler.DeleteOvertaken | internal/ui/pages/downloads.go:666-683 | from any full queue with a due download, the interleaving of its delete with the minute scheduler that leaves a live queued row without a position, and the soft delete that mends it |
| Scheduler.OvertakenExample | internal/ui/pages/downloads.go:678-683 | the same at a concrete table of two downloads |
| Scheduler.DiscardMends | internal/ui/pages/downloads.go:681-682 | the soft delete right after a Remove that found its row waiting puts the table in order again |
| Scheduler.FirstDrainEstablishes | internal/queue/manager.go:130-134 | the drain at startup establishes it from any ordered table |
| Scheduler.RecoveryEstablishes | internal/ui/layout/desktop.go:476-480 | after a restart from an ordered table, pausing the interrupted rows and draining establishes the invariant, and only rows just started are marked downloading |
| Scheduler.NobodyJumpsTheQueue | internal/queue/manager.go:47-109 | from a table in order, what an operation starts is the front of the queue, or one download while nobody waits; running downloads only grow within the limit |
| Scheduler.RemoveKeepsOrderIff | internal/queue/manager.go:120-127 | clearing a position keeps the table in order iff the row is not a live queued one |
| Scheduler.ReleasedOrdered | internal/queue/manager.go:82-88 | clearing the position of a running download leaves the queue in order |
| Lifecycle.ExactlyOneHolder | internal/ui/pages/downloads.go:389-469 | in every run a running id is held by exactly one of starting call, worker, finishing worker, prompt or releaser, and an idle id by nobody |
| Lifecycle.OneLiveDownloader | internal/ui/pages/downloads.go:392-413 | never two live downloaders for one id, and a starting call never finds its id registered |
| Lifecycle.NeverAlreadyActive | internal/ui/pages/downloads.go:399-404 | the already-active branch is unreachable |
| Lifecycle.ReleasedExactlyOnce | internal/ui/pages/downloads.go:474-598 | every OnDone finds its slot, whoever calls it; starts and releases of an id balance |
| Lifecycle.NoSlotLeaks | internal/queue/manager.go:78-89 | when nobody holds anything, no id is running and every start was released |
| Lifecycle.ShutdownDrainsPrompts | internal/ui/pages/downloads.go:568-598 | once shutdown has begun no prompt waits and no new worker registers |
| Lifecycle.NextKeepsLife | internal/ui/pages/downloads.go:334-598 | every step of the protocol keeps the account of slots, whatever order the table is in |
| DownloadsPageModel.DownloadsPage.StartDownload | internal/ui/pages/downloads.go:334-409 | registers a worker and marks the row downloading iff the record is usable and the page is open; otherwise gives the slot back once, and an unusable record is failed |
| DownloadsPageModel.DownloadsPage.FinishWorker | internal/ui/pages/downloads.go:415-432 | a registered worker, back from Start, leaves the map and releases its slot once unless a prompt takes it over; the row says failed, completed or paused, or is left to whoever cancelled |
| DownloadsPageModel.DownloadsPage.RunDownload | internal/ui/pages/downloads.go:334-432 | StartDownload and its worker together: the slot is released exactly once or a prompt has it, the worker is registered no longer, and the row says how it ended |
| DownloadsPageModel.DownloadsPage.ResumeDownload | internal/ui/pages/downloads.go:623-625 | the manager's step; a download it starts is in the hands of a starting call |
| DownloadsPageModel.DownloadsPage.MoveInQueue | internal/ui/pages/downloads.go:657-663 | the exchange of MoveQueuePosition as a step on any table; afterwards every settled table is in order |
| DownloadsPageModel.DownloadsPage.Finalize | internal/ui/pages/downloads.go:438-469 | a prompt takes over the slot iff the destination exists, the page is open and has a window; otherwise the outcome is recorded and the slot released once |
| DownloadsPageModel.DownloadsPage.AnswerPrompt | internal/ui/pages/downloads.go:474-554 | the first claim records its outcome and releases the slot once; every later one changes nothing |
| DownloadsPageModel.DownloadsPage.BeginShutdown | internal/ui/pages/downloads.go:568-596 | every worker is cancelled, every waiting prompt claimed and released exactly once, all of them are left paused; a second call changes nothing |
| DownloadsPageModel.DownloadsPage.PauseDownload | internal/ui/pages/downloads.go:601-620 | exactly a registered worker is cancelled and paused, and its slot stays with it |
| DownloadsPageModel.DownloadsPage.CancelDownload | internal/ui/pages/downloads.go:666-675 | the worker, if any, is cancelled; the row always is |
| DownloadsPageModel.DownloadsPage.RemoveFromQueue | internal/ui/pages/downloads.go:681 | the queue keeps its order exactly when the row is not waiting |
| DownloadsPageModel.DownloadsPage.DeleteDownload | internal/ui/pages/downloads.go:678-683 | uninterrupted, the row ends cancelled, deleted and out of the queue, and the others keep their order |
| Handoff.Controller.Prune | extension/src/core.mjs:274-282 | afterwards exactly the in-window timestamps remain, and no empty lists |
| Handoff.Controller.ClaimIntercept | extension/src/core.mjs:296-307 | claims the oldest in-window interception, or none when there is none |
| Handoff.Controller.InterceptFirefox | extension/src/core.mjs:329-336 | a success prunes and remembers; a failure changes nothing |
| Handoff.Controller.HandleCreated | extension/src/core.mjs:338-353 | suppressed iff an in-window interception can be claimed |
| Handoff.PruningIsInvisible | extension/src/core.mjs:274-307 | with a monotone clock every event gets the answer of a controller that never forgets |
| HandoffMatching.SuppressionIsMaximum | extension/src/core.mjs:290-353 | for each URL the number of suppressed events is the maximum matching of download events to earlier successful interceptions in the window |
| HandoffMatching.NoPairingIsLarger | extension/src/core.mjs:296-307 | no matching is larger than what the controller suppresses |
| HandoffMatching.ControllersPairing | extension/src/core.mjs:296-307 | the controller's own claims are such a matching |
| HandoffMatching.Exchange | extension/src/core.mjs:296-307 | the exchange argument, for every prefix of the history and every time from which interceptions are counted |
| HandoffTurns.EveryCancelIsPaidFor | extension/src/core.mjs:338-387 | over all interleavings, every cancelled download is paid for by its own acceptance of the same URL, and no call cancels twice |
| HandoffTurns.CancelsAtMostAcceptances | extension/src/core.mjs:329-387 | per URL, cancels never exceed acceptances |
| HandoffTurns.InterceptionsAreConserved | extension/src/core.mjs:290-307 | per URL, successful interceptions = claims + remembered entries + expired entries |
| HandoffTurns.ExactlyOneFate | extension/src/core.mjs:290-307 | every acceptance is exactly one of remembered, expired, spent |
| HandoffTurns.PreservedIsNotCancelled | extension/src/core.mjs:355-364 | a download the native host did not take is never cancelled |
| HandoffTurns.NextKeeps | extension/src/core.mjs:329-387 | every turn of the event loop keeps the books of acceptances, entries and cancels |
| HandoffFates.FateOfAttempt | extension/src/core.mjs:355-387 | over every run of turns: an attempt is preserved iff the host refused it; cancelled, completed or erase-failed iff its cancel returned, accepted but preserved iff the cancel threw; completed iff the erase returned as well, erase-failed iff it threw |
| HandoffFates.FateOfDuplicate | extension/src/core.mjs:338-353 | a duplicate is reported as gone iff both its cancel and its erase returned, as preserved iff one of them threw |
| HandoffFates.EveryCallTold | extension/src/core.mjs:329-387 | every call stands exactly where its own turns have taken it |
| HandoffFates.BooksTold | extension/src/core.mjs:329-387 | an acceptance is booked for exactly the calls the host accepted, a cancel for exactly the accepted attempts and the duplicates |
| HandoffHistory.RunsRefine | extension/src/core.mjs:329-353 | in every run of turns, the entries are those of the table its history leads to |
| HandoffHistory.ClaimsAreSuppressions | extension/src/core.mjs:338-353 | what a run claims for a URL is what its history suppresses |
| HandoffHistory.NoRunFindsMore | extension/src/core.mjs:296-353 | no pairing of a run's events finds more duplicates than the controller did |
| View.DownloadStore.constructor | internal/ui/store/impl.go:53-59 | an empty store, sorted by creation, ascending, with no filter |
| View.DownloadStore.Rebuild | internal/ui/store/impl.go:217-286 | the view becomes exactly the shown records in the chosen order |
| View.DownloadStore.Load | internal/ui/store/impl.go:69-79 | new records, same selection and order, view up to date |
| View.DownloadStore.SetFilter | internal/ui/store/impl.go:126-132 | sets the status filter, clears the category, view up to date |
| View.DownloadStore.SetCategory | internal/ui/store/impl.go:135-144 | sets the category (All clears it), clears the status filter, view up to date |
| View.DownloadStore.SetSearch | internal/ui/store/impl.go:146-151 | sets the lower-cased query, keeps both filters, view up to date |
| View.DownloadStore.SetSort | internal/ui/store/impl.go:153-159 | sets column and direction, view up to date |
| View.ViewIsUnique | internal/ui/store/impl.go:253-283 | the specification has at most one view |
| View.ViewIgnoresInputOrder | internal/ui/store/impl.go:217-286 | the view does not depend on the order of the loaded records |
| View.DescendingIsReversed | internal/ui/store/impl.go:276-282 | the descending view is the ascending one back to front |
| View.SliceStableOrders | internal/ui/store/impl.go:253-283 | sorting records with different ids leaves each strictly before the next |
| View.LessTotal | internal/ui/store/impl.go:253-283 | the comparison is a strict order that never ties different ids |
| View.LessChain | internal/ui/store/impl.go:253-283 | and it is transitive |
| View.SortsBy | internal/ui/store/impl.go:253-283 | a record comes first iff its column's own field puts it first (name or status earlier in text order, size, part done or creation smaller), or does not tell the two apart and its id is lower; and the other way round when descending |
| View.CompareIsEarlier | internal/ui/store/impl.go:259-270 | the text order is by the first character that differs, a text before its extensions |
| AddDownload.FreshName | internal/ui/layout/desktop.go:420-425 | ends for every set of names within live records + 1 lookups, with the first free one of the name itself and its numbered forms |
| AddDownload.ProbesDiffer | internal/ui/layout/desktop.go:424 | no two names the loop tries are equal |
| AddDownload.CandidateKeepsExtension | internal/ui/layout/desktop.go:420-425 | numbering a name keeps its extension |
| AddDownload.ExtOf | internal/ui/layout/desktop.go:482-492 | the text from the last dot on, unless a separator comes first |
| AddDownload.Create | internal/ui/layout/desktop.go:420-451 | a free name and chunk rows 0..n-1 that partition the file |
| AddDownload.HandleAdd | internal/ui/layout/desktop.go:420-465 | from any table: the new row is stored and started, lined up last or scheduled, and each of the queue invariants is kept |

## Left out

- HTTP transport, DNS, proxies, TLS, address policy, cookies, fsync and power loss: a server is a function from requests to answers, the part file a sequence of bytes.
- A body read that returns neither bytes nor an error while the boundary after a range is checked: a body is a byte sequence and the way it ends.
- Concurrency inside one object: critical sections and loop turns are the steps of `Engine`, `Lifecycle` and `HandoffTurns`; a method of `Downloader` runs one worker, and what other workers do in between is in `Engine` only. The spawn loop's limit on simultaneous workers is over-approximated: any worker may be spawned at any time.
- DownloaderModel.Downloader.DownloadChunkWithRetry: the other workers stand still while the method runs, and `Start` runs them one after another; `Engine` lets them move at any step.
- EngineTheorems.SuccessMeansRemoteBytes: a kill in a run where reconciliation lowered a size is allowed only while no recorded size exceeds the credited one; `EngineKills.KillAtAnyMoment` gives the exact cost otherwise.
- EngineTheorems.SuccessMeansRemoteBytes: pending snapshots of one run are taken to land before the next run of the same download begins.
- Persisted progress is not monotone (a late snapshot may lower it), multi-chunk files may mix representations, and queued rows may be started and dropped during shutdown: the code does not promise these, so nothing is claimed.
- Trimming of validators, rate limiting, speed averages, remaining time, retry delays.
- The SQL engine, migrations and ignored database errors: each storage call succeeds in one step.
- StateManagerModel.StateManager.MoveQueuePosition: taken as one step although the source runs several statements outside the manager's lock.
- Scheduler.NobodyJumpsTheQueue: stated from tables in order; `QueueRuns.StartsInOrder` and `QueueRuns.WithinLimit` speak of the others.
- QueueRuns.RunKeeps: a restart falls between two operations; `QueueRuns.RecoverySettles` itself asks only that positions are apart, which the statements inside an operation keep (`SlotlessIsApart`, `LaunchSettles`, `ReorderSettles`).
- DownloadsPageModel.DownloadsPage.DeleteDownload: says what its three statements do together; each is a method and a step of its own, and what may come between them is in `QueueRuns`.
- ManagerModel.Manager.EnqueueScheduled: like the source, starts an id without looking at its row when a slot is free; that its callers pass live ids is not part of this model.
- CreateDownload, CreateChunks, PurgeOlderThan, UpdateTotalSize, SetValidators and columns no promise depends on (URL, category, speed limit, timestamps other than creation).
- Restarting a finished download while an earlier worker is still unwinding: the source cancels without waiting.
- Pausing all downloads, moving the finished file and picking a unique destination: only their effect on rows and slots is modelled.
- HandoffTurns.ExactlyOneFate: the lifetime of settled attempts in the controller's second map is not modelled, so attempts are never forgotten.
- The native host's protocol, time-outs and hint normalisation: an answer is a success or not.
- View.DownloadStore.Rebuild: lower-casing is an arbitrary function given to the store; progress is an exact ratio, so two ratios that a float cannot tell apart are told apart here; the moment between a setter and its rebuild is not observable.
- AddDownload.HandleAdd: begins once the file's size and name are known; the lookup by URL, name validation, the destination check and the speed limit come before or beside it.
- Widgets, themes, dialogs, notifications, tray, configuration, the HTTP API and the time-of-day scheduler.
