# mhftp, modelled and proved

mhftp moves a file in chunks. A client forks one worker per connection; the workers share nothing but a
metadata file (a 2103-byte header and an array of chunk statuses) guarded by one System V semaphore. Each
worker locks, reloads the whole array, claims the first open chunk, writes the whole array back and unlocks;
transfers the chunk; then locks, reloads, marks the chunk, writes back and unlocks. The project models this
in layers that fit together:

| layer | files |
|---|---|
| bytes, files, chunk arithmetic, counting | `bytes.dfy`, `chunk_layout.dfy`, `counting.dfy` |
| the chunk array as a value, its file format, the `Metadata` object, the semaphore | `chunk_table.dfy`, `metadata_codec.dfy`, `metadata_cut.dfy`, `metadata.dfy`, `semaphore.dfy` |
| `so_read` and the wire conversations, client and server, and both ends together | `sockets.dfy`, `number_field.dfy`, `wire.dfy`, `server.dfy`, `client.dfy`, `conversation.dfy` |
| every file and wire format written out byte by byte | `formats.dfy` |
| the worker loops as code, on a file that other processes change between their critical sections | `critical_sections.dfy`, `download_loop.dfy`, `upload_loop.dfy` |
| the download protocol: an atomic machine, the statement-level machine that refines it, whole runs, whole histories, and the bytes of the file | `atomic_download.dfy`, `download_workers.dfy`, `download_theorems.dfy`, `download_resume.dfy`, `download_interrupt.dfy`, `download_sessions.dfy`, `download_on_file.dfy`, `sessions_on_file.dfy` |
| the upload protocol, with a parent that overwrites the array without the lock | `upload_workers.dfy`, `upload_theorems.dfy`, `upload_exclusion.dfy`, `upload_recovery.dfy`, `upload_delivery.dfy`, `upload_interrupt.dfy`, `upload_on_file.dfy` |

## Main results

* **Download, any number of workers, any interleaving, failures and deaths anywhere.** The machine whose
  steps are the code's statements refines one in which a claim and a completion each change one chunk
  (`DownloadWorkers.Simulation`, `Refines`), so no update is lost. Claims are exclusive, finished chunks stay
  finished, the claims add up, at most one chunk is left behind for each worker lost, and the number of
  steps is bounded. From any array, a crash's included, an undisturbed run that can go no further has finished
  exactly the chunks that nobody was marked as holding (`DownloadTheorems.Complete`); `DownloadResume.Outcome`
  says exactly when the file is then right; and such runs exist from every reachable state (`RunsToTheEnd`).
* **Control-C.** Once the flag is set, in every run each worker claims at most one chunk more and one past its
  claim none (`DownloadInterrupt.FlagRun`, `FlagEach`); on sound connections every chunk in transfer at that
  moment is finished (`GracefulInterrupt`).
* **Every history** of runs that finish, are interrupted or crash, mixed with `mhstatus` recover, reset and
  check in any order, keeps every chunk marked OK correct in the local file (`DownloadSessions.HistorySound`).
  What each of them leaves is stated by what the next run does: it requests exactly the unfinished chunks after
  an interrupt, all chunks after a reset, and after a crash never a dead worker's (`InterruptThenResume`,
  `ResetThenDownload`, `CrashThenResume`); and after any change to the data file that the digests can tell, check,
  recover and a run request exactly what is unfinished or wrong and put it right (`CorruptionRepaired`).
  The code of the parent and of `mhstatus`, on the bytes of the metadata file, does just this
  (`SessionsOnFile`).
* **Upload, from any array.** In spite of the parent's overwrites, what is marked OK has been sent, what was
  open ends OK, and every upload ends (`UploadTheorems`); `UploadDelivery.WholeUpload` says exactly when a
  completely delivered upload makes the source a prefix of the target.
* **The code's loops.** The worker loops are proved as methods that use the real `Metadata`, socket and
  semaphore operations, whatever the other processes do to the metadata file while the worker waits, within
  conditions (`CriticalSections.Rely`, `UploadLoop.UploadRely`) that the machines, taken down to the bytes of
  the file, are proved to meet (`DownloadOnFile.WaitsRely`, `UploadOnFile.WaitsRely`). Each method also returns
  its rounds: what the file held and what the worker had sent and stored at every moment at which it let the
  others in, so that a worker that dies is known to leave its chunk marked as in transfer and nothing else.
* **The conversations.** For description, download and upload, both ends are proved together
  (`Conversation`): each reads what the other wrote, in whatever pieces. A download stream cut off anywhere is
  never taken for a chunk.

## What turned out not to hold

* **More than a million chunks.** The chunk number travels in seven bytes, of which `snprintf` fills at most
  six. `NumberField.FieldFaithful` gives the exact range; a longer number is answered as its leading six
  digits (`TooLong`). The download still marks every chunk OK and ends; `DownloadTheorems.AllWritten` says
  exactly when the result is right all the same, and `DownloadResume.LargeDownloadWrong` gives one that is not.
* **Exclusive claiming in uploads.** It holds if and only if there is at most one worker or nothing to claim
  (`UploadExclusion.ExclusiveIff`); otherwise two workers can send the same chunk, and
  `UploadExclusion.TwoClaims` builds the run.
* **Chunks left in transfer.** Neither client reopens a chunk that an earlier run left marked as in transfer.
  A run finishes everything if and only if there is none (`DownloadTheorems.Complete`,
  `UploadTheorems.Complete`); `DownloadResume.CrashNotRepaired` and `UploadTheorems.ResumedUpload` give runs
  that do not.
* **`--recover`.** `README.md:73` of the repository says that recover sets all chunks that are not OK to
  pending. The code (`protocol/metadata.cpp:464-466`) leaves CH_UPLOAD as it is, and the model follows the
  code. It does what is said of it exactly on arrays without CH_UPLOAD (`UploadRecovery.RecoverAsPromised`,
  with a failing array in `RecoverFails`). After an upload that lost a worker while it was sending, recover
  does not help: the next upload never sends that chunk (`LeftByTheDead`, `ChunkLost`).
* **Truncated metadata.** A metadata file cut off inside its array loads without complaint, because CH_OK is
  zero. `MetadataCut.CutFile` says what every entry becomes; `NothingFinishedIff` says exactly when no
  unfinished chunk becomes a finished one, and `CutExample` is a file for which one does.
* **Too many clients.** With more clients than NPROC the parent marks the metadata file in use and then exits
  (`protocol/mhproto_client.cpp:260-264`). A run clears the mark exactly when there are not too many
  (`DownloadSessions.MarkClearedIff`), and afterwards recover and reset work only by force (`TooManyClients`).
* **The announced chunk size.** The server places uploaded chunks by the size on the client's command line
  (`protocol/mhproto_client.cpp:437`), the client cuts them by that of the metadata file. All chunks are placed
  right exactly if the two agree or only the first is sent (`UploadDelivery.PlacedRightIff`); `AnnouncedWrong`
  is an upload gone wrong.

## Assumptions

A source file that does not change; a chunk size between 1 and MAX_CHUNK_SIZE; the chunk array written by one
atomic `write()`; local writes that do not fail or fall short; reliable ordered connections that may end
early. MD5 is a parameter, any function from bytes to 16 bytes. In the results about a finished upload the
announced chunk size is the one in the metadata file. Files are opened without truncation, so a
finished transfer makes the source a prefix of the target; equality is claimed only when the old file was not
longer. In the download machine the local file is written at `chunkNumber * chunkSize` whatever is in the
reply; the digest is recorded and not compared, as in the code.

## Model

| member | source | states |
|---|---|---|
| DownloadWorkers.Simulation | protocol/mhproto_client.cpp:45-101 | every statement of a worker, failure, death or interrupt is one step of the atomic machine or none; writing back a whole array changes just the one chunk its worker set |
| DownloadWorkers.Refines | protocol/mhproto_client.cpp:45-101 | every run of the statement machine is, projected, a run of the atomic machine and ends in the projected state: no update is lost |
| DownloadWorkers.InvStep | protocol/mhproto_client.cpp:49-59 | inside the critical section a worker's copy is the file's array up to the one cell it set; the lock holder is exactly the worker inside |
| DownloadWorkers.MutualExclusion | protocol/semaphore.cpp:68-94 | in every state of every run at most one process is between lock and unlock, and the semaphore is taken exactly while one is |
| DownloadWorkers.Possibilities | protocol/mhproto_client.cpp:45-101 | in every reachable state: a worker can move unless it has left or waits for a held lock, can die at any point and with any part of its write done, can lose its connection exactly during a transfer; control-C can always come |
| DownloadWorkers.DeathIs | protocol/semaphore.cpp:73 | a death frees the lock, writes nothing but a part of what was being written at the chunk's place, and leaves array, log and other workers as they are |
| DownloadWorkers.Reachable | protocol/mhproto_client.cpp:45-101 | the invariants of both machines hold in every state any run reaches, from any array whose OK chunks are good |
| DownloadWorkers.StuckMeansGone | protocol/mhproto_client.cpp:45-101 | no deadlock: no worker can move exactly when all have left, deaths inside the lock included |
| DownloadWorkers.MeasureStep | protocol/mhproto_client.cpp:45-101 | every step of a worker, failure or death strictly decreases a natural number built from chunks not OK and program counters |
| DownloadWorkers.StepBound | protocol/mhproto_client.cpp:45-101 | a run takes at most 13 worker steps for each chunk not OK plus 14 for each worker |
| AtomicDownload.InvRun | protocol/mhproto_client.cpp:49-101 | ownership, contents, accounting and claims are kept over every run of the atomic machine |
| AtomicDownload.OwnershipStep | protocol/mhproto_client.cpp:49-59 | no two workers, live or dead, hold one chunk; a chunk is CH_DOWNLOAD only if someone holds it; what was not open at the start is never touched |
| AtomicDownload.ContentsStep | protocol/mhproto_client.cpp:86-100 | whatever is written, whole or in part, every OK chunk keeps the server's bytes at its place and their digest |
| AtomicDownload.AccountingStep | protocol/mhproto_client.cpp:51-59 | claims so far are the chunks newly OK plus those some worker still answers for |
| AtomicDownload.ExhaustedStep | protocol/metadata.cpp:426-436 | once a worker found nothing open, each chunk not OK is some worker's |
| AtomicDownload.OkStays | protocol/metadata.cpp:438-446 | no step, failure or death changes the entry of an OK chunk |
| AtomicDownload.LengthRun | protocol/mhproto_client.cpp:86-88 | with at most a million chunks no run makes the local file longer than the source or than it was |
| AtomicDownload.ReplyLength | protocol/mhproto_server.cpp:65-74 | a reply is at least as long as the chunk asked for and at most a chunk, and it is that chunk below one million |
| DownloadTheorems.ExclusiveOwnership | protocol/mhproto_client.cpp:49-59 | in every state of every run no two workers have the same chunk; begun with nothing in hand, a chunk is CH_DOWNLOAD exactly when a worker has it |
| DownloadTheorems.OkNeverRevoked | protocol/metadata.cpp:426-446 | a chunk OK at some point of a run keeps its whole entry to the end |
| DownloadTheorems.ClaimAccounting | protocol/mhproto_client.cpp:51-59 | claims = chunks newly OK + claims of workers still holding or failed; at most the chunks open at the start plus the workers; only chunks open at the start |
| DownloadTheorems.FailureBound | protocol/mhproto_client.cpp:51-101 | if some worker left for want of chunks, then once all have stopped the chunks not OK are those marked as in transfer at the start, all of them, and otherwise each the last chunk of a failed or dead worker; at most as many as both together |
| DownloadTheorems.Complete | protocol/mhproto_client.cpp:254-309 | from any array whose OK chunks are good, every undisturbed run that can go no further requested exactly the open chunks, once each, and leaves not OK exactly those marked as in transfer; with none of these the source is a prefix of the local file exactly if it is faithful to the number field |
| DownloadTheorems.AllWritten | protocol/mhproto_server.cpp:49-77 | with every reply in place, the source is a prefix of the local file if and only if the chunks the field cannot name begin like those sent instead |
| DownloadTheorems.RunsToTheEnd | protocol/mhproto_client.cpp:45-101 | from every reachable state some undisturbed run lets all workers leave |
| DownloadResume.Outcome | protocol/mhproto_client.cpp:254-309 | from any array and local file: the length of the result, and the source is its prefix if and only if the chunks left in transfer were right already, padded to that length, and the others are faithful to the number field |
| DownloadResume.UntouchedRun | protocol/mhproto_client.cpp:86-88 | over every run, deaths inside a write included, the places of chunks not open at the start read as before, with zeros beyond the old end |
| DownloadResume.CompleteExactly | protocol/mhproto_client.cpp:313-324 | up to a million chunks and with a local file not longer than the source, the result equals the source exactly if the chunks left in transfer were right already; without such chunks always |
| DownloadResume.CrashNotRepaired | protocol/mhproto_client.cpp:254-262 | from any array with a chunk left in transfer some undisturbed run ends without finishing it |
| DownloadResume.LargeDownloadWrong | protocol/mhproto_server.cpp:49-67 | a file of a million and one chunks whose first download ends with every chunk OK and a wrong local file |
| DownloadInterrupt.KillCounts | protocol/mhproto_client.cpp:448-460 | over every run the flag is the number of interrupts, nothing else sets it or clears it |
| DownloadInterrupt.FlagRun | protocol/mhproto_client.cpp:101 | from any state with the flag set, over every run: claims never exceed the workers that were on their way to one |
| DownloadInterrupt.FlagEach | protocol/mhproto_client.cpp:101 | each of those claims at most once; a worker past its claim never claims again, keeps its chunk and leaves by the test of the flag or dies |
| DownloadInterrupt.GracefulInterrupt | protocol/mhproto_client.cpp:448-479 | an interrupt at any moment of any run: at most one more chunk for each worker not past its claim, and on sound connections every chunk in transfer at the time ends OK |
| DownloadInterrupt.GracefulEnd | protocol/mhproto_client.cpp:448-479 | whenever the interrupt comes, some run without failures lets all workers leave |
| DownloadInterrupt.StatusExplained | protocol/mhproto_client.cpp:91-100 | over every run: a pending chunk has not been touched; one in error either was so from the start or was the last of a worker whose connection failed, under the digest it received |
| DownloadSessions.HistorySound | protocol/mhproto_client.cpp:254-309 | over every history of downloads, failures, deaths, interrupts, crashes, recoveries, resets and checks, OK chunks are good, sizes are the layout's |
| DownloadSessions.SessionsHappen | protocol/mhproto_client.cpp:254-309 | from every sound disk a run can finish undisturbed, be interrupted and come to its end, or crash with all workers dead |
| DownloadSessions.OkChunkIsSource | protocol/mhproto_client.cpp:86-100 | after any history an OK chunk below one million holds exactly the source's bytes at its place, under their digest |
| DownloadSessions.CheckFindsNothing | protocol/metadata.cpp:486-523 | after any history the integrity scan changes nothing |
| DownloadSessions.FinishedDownload | protocol/mhproto_client.cpp:301-309 | from any sound disk, a finishing undisturbed run clears in_use, requests exactly the open chunks and leaves not OK exactly those in transfer; the source is a prefix exactly if these were right already |
| DownloadSessions.ResetKeepsFinished | protocol/mhproto_client.cpp:448-479 | after an interrupt or a forced recover every chunk is OK or PENDING, in_use is 0, the OK set, digests and sizes are those before the reset |
| DownloadSessions.InterruptThenResume | protocol/mhproto_client.cpp:476-477 | after any history, an interrupted run then an undisturbed one: the second requests exactly the chunks not OK at the interrupt, once each, and completes the file |
| DownloadSessions.CrashThenResume | protocol/mhproto_client.cpp:254-262 | after any history, a crash then an undisturbed run without recover, which starts from what the dead workers left in both files: it requests exactly their unfinished chunks less those in transfer; no chunk a dead worker had is requested, and each stays CH_DOWNLOAD |
| DownloadSessions.RepairIs | protocol/metadata.cpp:454-484 | recover and reset: refused exactly when in use and not forced, otherwise in_use 0, sizes, digests and data kept, DOWNLOAD and ERROR pending, and OK and UPLOAD kept by recover and pending after reset |
| DownloadSessions.ResetThenDownload | protocol/metadata.cpp:474-484 | after an admitted or forced reset no chunk is OK, and an undisturbed run requests every chunk once and completes the file |
| DownloadSessions.CorruptionRepaired | protocol/metadata.cpp:486-523 | let the data file change in any way that the digests can tell: check, recover and an undisturbed run request exactly the chunks unfinished or no longer right, and complete the file |
| DownloadSessions.MarkClearedIff | protocol/mhproto_client.cpp:259-264 | a run that is to finish leaves in_use clear exactly if there are at most ten clients; otherwise only the mark is set |
| DownloadSessions.TooManyClients | protocol/mhproto_client.cpp:260-264 | after that mark recover and reset change something exactly if forced |
| DownloadSessions.FirstDownload | protocol/mhproto_client.cpp:254-325 | from fresh metadata and a local file not longer than the source, the file ends equal to the source with every chunk OK and in_use 0 |
| DownloadOnFile.FileIsTheArray | protocol/metadata.cpp:329-343 | over every run, loading the metadata file's bytes gives the machine's array under the header the run began with, byte for byte |
| DownloadOnFile.OthersKeep | protocol/mhproto_client.cpp:49-59 | whatever the other workers do, a waiting worker finds the same header, every OK entry and its own chunk's entry unchanged |
| DownloadOnFile.WaitsRely | protocol/mhproto_client.cpp:49-59 | whatever the others can do in the protocol while a worker waits, on the bytes of the file, is within what its loop relies on |
| SessionsOnFile.DownloadFileFromServer | protocol/mhproto_client.cpp:254-309 | the parent's code on the bytes of the metadata file, for every number of clients and each way of ending, leaves what the act of the history says |
| SessionsOnFile.RecoverMetaData | mhstatus.cpp:106-112 | likewise --recover |
| SessionsOnFile.ResetMetaData | mhstatus.cpp:114-126 | likewise --reset |
| SessionsOnFile.CheckChunkData | mhstatus.cpp:128-134 | likewise --check |
| CriticalSections.ClaimChunk | protocol/mhproto_client.cpp:49-59 | the claim on the file: the first open chunk of the array found, and the array left differs from it in that chunk's status only; -1 exactly when nothing is open |
| CriticalSections.CompleteChunk | protocol/mhproto_client.cpp:91-100 | the completion on the file: the array left is the one found with that chunk OK or ERROR and the digest stored |
| CriticalSections.HandedOver | protocol/mhproto_client.cpp:49-59 | in what a worker lets the others see, its own chunk is marked as in transfer, and no chunk is OK that was not so in what it found, except its own once completed |
| CriticalSections.AnswersFound | protocol/semaphore.cpp:68-80 | at each wait a worker finds exactly what the others made of the file it had left |
| CriticalSections.MarkInUse | protocol/mhproto_client.cpp:307-309 | setting the in-use mark changes nothing else that a load finds |
| DownloadLoop.DownloadFileFromServer | protocol/mhproto_client.cpp:20-105 | the worker's loop, on every connection and under any interference: chunks open at the start, none twice; finished ones marked OK, the failed one ERROR; whole replies in the local file under their digests, and failure exactly if a reply is missing; it stops at once when the kill flag is set; it ends. And for each round, what it leaves in the file at both waits: the array found with only its chunk marked CH_DOWNLOAD, later only its chunk OK or ERROR, with the requests sent and the replies stored by then |
| DownloadLoop.TurnArrived | protocol/mhproto_client.cpp:49-100 | one round with a whole reply keeps all of that and leaves fewer chunks not OK |
| DownloadLoop.TurnFailed | protocol/mhproto_client.cpp:66-97 | one round with a broken reply leaves the earlier chunks as they were, the local file untouched and its own chunk not OK |
| DownloadLoop.DownloadTurn | protocol/mhproto_client.cpp:45-101 | one turn of the loop ends as above or goes on with one more finished chunk |
| UploadWorkers.InvAlways | protocol/mhproto_client.cpp:142-180 | in every state of every upload any copy of the array, in the file or in a worker's memory, is credible: OK means OK at the start or sent, in transfer means someone has it |
| UploadTheorems.OkWasSent | protocol/mhproto_client.cpp:371-389 | from any array and in spite of the parent's overwrites an OK chunk was OK at the start or has been sent in full, and a chunk not open at the start is left as it was and never sent |
| UploadTheorems.LeftOver | protocol/mhproto_client.cpp:142-180 | once all have stopped, the last worker for want of chunks, the chunks not OK are those in transfer at the start, all of them, and otherwise ones that dead workers had; at most as many as both together |
| UploadTheorems.StuckMeansGone | protocol/mhproto_client.cpp:371-416 | no deadlock: when nothing can move all workers have been forked and have left |
| UploadTheorems.Possibilities | protocol/mhproto_client.cpp:366-426 | in every reachable state: the parent saves and forks in turn, a worker moves unless it has left or waits for a held lock, can die at any point; control-C can always come |
| UploadTheorems.StoresAre | protocol/mhproto_client.cpp:142-180 | the claim leaves an open chunk of the file marked CH_UPLOAD, the completion leaves it OK under the digest field that is never filled |
| UploadTheorems.Complete | protocol/mhproto_client.cpp:366-426 | from any array, every undisturbed upload that can go no further has sent exactly the open chunks and leaves not OK exactly those in transfer at the start; so it finishes everything if and only if there were none |
| UploadTheorems.RunsToTheEnd | protocol/mhproto_client.cpp:366-426 | every undisturbed beginning of an upload goes on to such an end |
| UploadTheorems.ResumedUpload | protocol/mhproto_client.cpp:439-440 | an array of three chunks from which an upload ends with one not finished and never sent |
| UploadRecovery.RecoverAsPromised | protocol/metadata.cpp:454-470 | recover turns all chunks not OK into pending ones if and only if none is CH_UPLOAD; it leaves in transfer exactly those |
| UploadRecovery.UploadAfterRecover | protocol/metadata.cpp:463-468 | after recover of any array an undisturbed upload leaves unsent and unfinished exactly the CH_UPLOAD chunks, and sends all others that are not OK |
| UploadRecovery.LeftByTheDead | protocol/mhproto_client.cpp:142-180 | after an upload in which workers died and a recover, the next leaves unsent exactly what the file still shows in transfer, each a dead worker's last chunk |
| UploadRecovery.ChunkLost | protocol/mhproto_client.cpp:154-168 | whatever there is to upload, a worker's death while sending the first open chunk gives such a chunk |
| UploadOnFile.FileIsTheArray | protocol/metadata.cpp:279-298 | over every run, whatever the file held, once the parent has saved a load finds the machine's array under the parent's header |
| UploadOnFile.WaitsRely | protocol/mhproto_client.cpp:371-389 | whatever parent and workers can do while an upload worker waits, on the bytes of the file, is within what its loop relies on |
| UploadTheorems.MeasureStep | protocol/mhproto_client.cpp:142-180 | every step of parent or worker decreases a measure that is never negative, although overwrites reopen chunks |
| UploadTheorems.Terminates | protocol/mhproto_client.cpp:142-180 | no upload takes more steps than the measure it starts from |
| UploadTheorems.NoSaveKeepsOk | protocol/mhproto_client.cpp:371-389 | between overwrites, what is OK in the file stays OK whatever the workers do |
| UploadInterrupt.KillCounts | protocol/mhproto_client.cpp:180 | over every run the flag is the number of interrupts |
| UploadInterrupt.FlagEach | protocol/mhproto_client.cpp:180 | once the flag is set each worker, also one forked later, claims at most once more, one past its claim never again, and it leaves by the test of the flag or dies |
| UploadExclusion.ExclusiveIff | protocol/mhproto_client.cpp:371-389 | every run claims exclusively if and only if there is at most one worker or nothing to claim |
| UploadExclusion.TwoClaims | protocol/mhproto_client.cpp:374-375 | otherwise a run in which two workers are sending the same chunk |
| UploadLoop.UploadFileToServer | protocol/mhproto_client.cpp:118-184 | the worker's loop under any interference: one true record for each claim and -1 exactly when nothing is open; it ends once the overwrites end; without overwrites nothing is sent twice and all of it stays OK; it stops at once when the kill flag is set. And for each round, what it leaves in the file at both waits: the array found with only its chunk marked CH_UPLOAD, and later only its chunk OK, when that chunk's record has been written in full |
| UploadLoop.UploadConnection | protocol/mhproto_client.cpp:371-385 | a connection carries exactly a stream that the server's loop is proved to parse, with a goodbye exactly if the worker ran out of chunks |
| UploadLoop.TurnLasts | protocol/mhproto_client.cpp:147-179 | one round without overwrites leaves fewer chunks not OK and repeats none |
| UploadDelivery.WholeUpload | protocol/mhproto_server.cpp:143-154 | from any array and target, an undisturbed, fully delivered upload, in any order of arrival and with repeats, makes the source a prefix of the target if and only if the chunks it did not have to send were right already, padded to the length it reaches |
| UploadDelivery.FinishedUpload | protocol/mhproto_server.cpp:143-154 | with those chunks right in the target the source becomes its prefix, and equal to it if the target was not longer |
| UploadDelivery.PlacedRightIff | protocol/mhproto_client.cpp:437 | chunks sent are placed right exactly if the announced chunk size is the metadata file's or only the first chunk is sent |
| Conversation.Describe | protocol/mhproto_client.cpp:328-362 | both ends together: the client's metadata file has the source's size and digest, the path asked for, chunks of exactly the size asked for or 1048576 if that is 0, their count, and nothing done; or the client learns that there is no such file |
| Conversation.Download | protocol/mhproto_client.cpp:20-105 | both ends together: the server writes exactly the replies to the chunks claimed, from the file that the header names; if all reaches the worker every chunk it claimed is finished and right, if part, it fails exactly if a reply is missing and the whole ones are right |
| Conversation.Upload | protocol/mhproto_server.cpp:133-187 | both ends together: the target receives exactly the claimed chunks' records, placed by the announced size, with or without a goodbye |
| Wire.ReplyArrives | protocol/mhproto_client.cpp:66-89 | a reply delivered in any pieces is received exactly: digest, size and bytes, with the reader at its end |
| Wire.CutReplyFails | protocol/mhproto_client.cpp:66-84 | a reply cut off anywhere, in any pieces, is a socket error |
| Wire.ConversationInStep | protocol/mhproto_client.cpp:61-89 | for every sequence of requests and every fragmentation the client decodes for each exactly that chunk's digest, size and bytes |
| Wire.AppliedKeeps | protocol/mhproto_server.cpp:150-153 | true records in any order leave chunk i right if it was right or is among them |
| Wire.AnyOrder | protocol/mhproto_server.cpp:143-154 | records in any order, with repeats: if all chunks are covered the target has the source as its prefix |
| Wire.CStringIs | protocol/mhproto_server.cpp:41 | the name field, read up to its first zero byte, is the path asked for, whatever the memory behind it held |
| Server.MhProtoServer.SendChunkToClient | protocol/mhproto_server.cpp:20-80 | for a header and any requests in any pieces the server opens the file that the header's name field names and writes exactly the reply to each request, in order, and stops at the end of the stream |
| Server.MhProtoServer.ServeRequests | protocol/mhproto_server.cpp:46-79 | the request loop: exactly the replies that are due, and on any connection at most ten requests that come short are put up with |
| Server.MhProtoServer.SendMetadataToClient | protocol/mhproto_server.cpp:82-120 | for a request in any pieces: 1 if there is no such file, else 0 and a header that names the file and describes it in chunks of the size asked for, 1048576 if that is 0 |
| Server.MetaReplyTells | protocol/mhproto_server.cpp:90-119 | the reply decodes to size, digest, name, chunk size and count as just stated, for every file, size and path |
| Server.MhProtoServer.NextRequest | protocol/mhproto_server.cpp:49-58 | the next field decodes to the chunk asked for (through the number field), and the end of the requests reads as no bytes |
| Server.MhProtoServer.LoadChunkFromFile | protocol/mhproto_server.cpp:122-131 | the bytes at the position, as many as asked for, and their digest |
| Server.MhProtoServer.ReceiveChunkFromClient | protocol/mhproto_server.cpp:133-158 | for any records in any pieces, ended by -1 or the connection, the target receives exactly those records and the parser stands behind the -1 |
| Server.MhProtoServer.NextNumber | protocol/mhproto_server.cpp:143-146 | the next eight bytes are the next record's number, -1, or the end, according to what was written |
| Server.MhProtoServer.InitUpload | protocol/mhproto_server.cpp:160-187 | the fields of UPLOAD_INIT are recovered exactly from any fragmentation |
| Server.MhProtoServer.RcvCmd | protocol/mhproto_server.cpp:198-218 | each of the four commands is recognised and carried out and leaves the stream at the next; the end of the stream ends the process |
| Server.Core | mhftp.cpp:91-96 | for any list of commands, fully delivered in any pieces, the target and the server's output are those of carrying them out one after the other, and the process ends |
| Client.RequestChunk | protocol/mhproto_client.cpp:107-115 | seven bytes are added, from which the server decodes the chunk's number exactly below a million and its leading six digits otherwise |
| Client.RequestStream | protocol/mhproto_client.cpp:30-33 | what a download worker writes, command, header and requests, is the command that the server parses |
| Client.WholeStream | protocol/mhproto_client.cpp:428-444 | what an upload worker writes is the two commands that the server parses |
| Client.DownloadMetadataFromServer | protocol/mhproto_client.cpp:328-362 | a metadata file with the server's header and a fresh array, or nothing when the file is not there |
| Client.FetchChunk | protocol/mhproto_client.cpp:61-89 | on any connection whatever the local file changes only when the whole reply has arrived, and then just at the chunk's place |
| Client.WholeOrBroken | protocol/mhproto_client.cpp:66-84 | the next reply arrives whole, or it is cut off and fails; nothing else can happen to the server's bytes |
| Client.SendChunk | protocol/mhproto_client.cpp:158-168 | the record of a chunk: number, size and that chunk's bytes |
| Client.InitUploadOnServer | protocol/mhproto_client.cpp:428-444 | the bytes written are the UPLOAD_INIT command the server parses |
| NumberField.RequestedIs | protocol/mhproto_client.cpp:107-115 | what the server decodes for every number: the leading six digits, five for a negative one |
| NumberField.FieldFaithful | protocol/mhproto_server.cpp:49-58 | printing then parsing is the identity exactly for -100000 < n < 1000000 |
| NumberField.TooLong | protocol/mhproto_client.cpp:110-113 | from a million on the answer is n divided by ten to the number of digits lost, a different number |
| Sockets.SoRead | con_tcp.cpp:73-103 | count, buffer and what is left on the socket, for every sequence of pieces, EAGAINs and errors |
| Sockets.CleanRead | con_tcp.cpp:81-102 | for every fragmentation without errors: min(len, remaining) bytes, exactly that prefix, nothing more consumed |
| Sockets.AnyPieces | con_tcp.cpp:81-102 | every way of cutting a stream into pieces is a connection that carries it |
| Sockets.FieldArrives | con_tcp.cpp:92-102 | a field delivered in any pieces is read exactly and the reader stands behind it |
| Sockets.FieldCutShort | con_tcp.cpp:95-102 | a connection that ends inside a field gives a short count |
| MetadataObject.Metadata.SaveMetadata | protocol/metadata.cpp:279-298 | the bytes written, and that a load finds this header and array whatever the file held before |
| MetadataObject.Metadata.LoadMetadata | protocol/metadata.cpp:240-273 | succeeds exactly on readable files, with the decoded header and array |
| MetadataObject.Metadata.UpdateControlData | protocol/metadata.cpp:329-343 | overwrites the array at offset 2103 and nothing else |
| MetadataObject.Metadata.StoreMetadata | protocol/metadata.cpp:177-227 | a load after it finds the header and all chunks pending with the layout's sizes |
| MetadataObject.Metadata.InitControlData | protocol/metadata.cpp:308-323 | all chunks pending, sizes by the layout |
| MetadataObject.Metadata.Create | protocol/metadata.cpp:85-128 | size, ceil-division count and digest of the given file, not in use |
| MetadataObject.Metadata.GetNextPendingChunk | protocol/metadata.cpp:426-436 | the specification NextPending, whose meaning NextPendingIs gives |
| MetadataObject.Metadata.SetChunkStatus | protocol/metadata.cpp:438-446 | one entry's status and, if given, its digest; every other entry stays |
| MetadataObject.Metadata.ResetDownloadingChunks | protocol/metadata.cpp:454-470 | refuses a file in use unless forced; otherwise DOWNLOAD and ERROR become PENDING, in_use 0, all else kept |
| MetadataObject.Metadata.ResetAllChunks | protocol/metadata.cpp:474-484 | refuses a file in use unless forced; otherwise every chunk PENDING, in_use 0 |
| MetadataObject.Metadata.CheckDataChunks | protocol/metadata.cpp:486-523 | an OK chunk becomes ERROR if and only if the data file's bytes at its own place, as far as the file goes, do not have the stored digest; sizes, digests and all other chunks stay; saved only if not in use, and then a load finds exactly that table |
| MetadataObject.ScanChunks | protocol/metadata.cpp:501-515 | the loop does that even after short reads; the position stays at the start of the next chunk while OK chunks lie inside the file |
| MetadataObject.CheckedIsJudged | protocol/metadata.cpp:501-515 | the table that the histories use for a check meets that description |
| MetadataObject.JudgedAtPlace | protocol/metadata.cpp:501-515 | in a table with the layout's sizes the place judged is the chunk's own, at chunkSize times its number |
| MetadataObject.InStepNext | protocol/metadata.cpp:501-515 | a read or a seek keeps the scan in step, and what is read stands at the chunk's own place |
| MetadataObject.Metadata.WriteMetadataHeader | protocol/metadata.cpp:525-531 | the header's bytes on the wire |
| MetadataObject.Metadata.ReadMetadataHeader | protocol/metadata.cpp:533-539 | recovers that header from any fragmentation and stands behind it |
| MetadataCodec.LoadUndoesSave | protocol/metadata.cpp:240-298 | load after save gives back every header and array, even over a longer old file |
| MetadataCodec.LoadAfterUpdate | protocol/metadata.cpp:329-343 | a load after the in-place patch finds the new array and the old header, in_use included; the first 2103 bytes are untouched |
| MetadataCodec.LostEntriesReadAsOk | protocol/metadata.cpp:268-271 | in any file that loads, entries wholly beyond its end are finished chunks of no bytes (what happens to a cut entry is MetadataCut.CutFile) |
| MetadataCut.CutFile | protocol/metadata.cpp:240-273 | a saved file cut anywhere loads if and only if its header is whole; an entry that keeps the first byte of its status is right, every other loads as OK |
| MetadataCut.StatusKeptIff | protocol/metadata.cpp:268-271 | a chunk of a cut file keeps its status if and only if it was OK or more than 24 bytes of its entry are left |
| MetadataCut.NothingFinishedIff | protocol/metadata.cpp:268-271 | no unfinished chunk loads as finished if and only if that much is left of the entry of each unfinished chunk |
| MetadataCut.CutExample | protocol/metadata.cpp:268-271 | a file of one pending chunk, eight bytes short, that loads it as OK |
| MetadataCodec.HeaderRoundTrip | protocol/metadata.h:32-34 | decoding the 2103 header bytes gives the header back |
| MetadataCodec.TableRoundTrip | protocol/metadata.cpp:268-271 | decoding the array's bytes gives the array back |
| Formats.Int64Layout | protocol/metadata.cpp:525-531 | every 64-bit field is little-endian two's complement, byte by byte |
| Formats.Int16Layout | protocol/mhproto_client.cpp:338-340 | 16-bit fields are two bytes, the low one first |
| Formats.MinusOne | protocol/mhproto_client.cpp:149-153 | the goodbye of an upload is eight bytes 255 |
| Formats.HeaderLayout | protocol/metadata.cpp:279-298 | the 2103 header bytes: the fourteen characters MHFTP_METADATA, then name, size, chunk size, count, digest, in_use at their offsets |
| Formats.EntryLayout | protocol/chunkInfo.h:23 | the 32 bytes of an entry: digest, size, the status as 0 for OK, 1 PENDING, 2 ERROR, 3 DOWNLOAD, 4 UPLOAD, and padding |
| Formats.FileLayout | protocol/metadata.cpp:279-298 | entry i stands at 2103 + 32 i |
| Formats.WireHeaderLayout | protocol/metadata.cpp:525-531 | the 2088 bytes of a header on the wire, field by field |
| Formats.ReplyLayout | protocol/mhproto_server.cpp:65-77 | a reply is digest, size, data, at their offsets |
| Formats.RecordLayout | protocol/mhproto_client.cpp:158-168 | a record is number, size, data, at their offsets |
| Formats.InitLayout | protocol/mhproto_client.cpp:428-444 | UPLOAD_INIT: length and path, chunk size, file size, digest |
| Formats.AskLayout | protocol/mhproto_client.cpp:335-340 | a description request: chunk size, length and path |
| Formats.CommandByte | protocol/mhproto.h:40-43 | the four command bytes 1 to 4 |
| Formats.RequestLayout | protocol/mhproto_client.cpp:107-115 | request k of a stream is its seven bytes at 7 k |
| Formats.FieldLayout | protocol/mhproto_client.cpp:107-115 | the field holds the number's leading six decimal digits and zeros |
| Formats.AtoiExamples | protocol/mhproto_server.cpp:58 | leading blanks, signs and trailing characters as atoi treats them |
| Formats.ReadMeetsFailure | con_tcp.cpp:95-102 | a failure inside a field gives the short count of what came before it, which is in the buffer, with the old contents behind it |
| Formats.ReadStartsWithFailure | con_tcp.cpp:81-94 | a failure at once gives -1, one EAGAIN at once is forgiven |
| Formats.ShortRead | con_tcp.cpp:95-102 | a connection that ends early leaves in the buffer what came, and behind it the old contents |
| Formats.GotIsWhole | protocol/mhproto_client.cpp:66-84 | on any connection, failures included, a fetch succeeds only on digest, size and that many bytes |
| ChunkTable.NextPendingIs | protocol/metadata.cpp:426-436 | the lowest open chunk, and -1 exactly when there is none |
| ChunkLayout.CountBounds | protocol/metadata.cpp:105-108 | the ceil-division count is the least that covers the file |
| ChunkLayout.ChunkBounds | protocol/metadata.cpp:314-322 | every chunk has 1 to chunkSize bytes inside the file, all but the last are full, and no position leaves int64 |
| ChunkLayout.SizesSum | protocol/metadata.cpp:314-322 | the first k sizes sum to chunk k's position, all of them to the file's size |
| ChunkLayout.Tiling | protocol/metadata.cpp:314-322 | a position lies in chunk i exactly if it is inside the file and i is its quotient: disjoint and complete |
| ChunkLayout.PiecesMakePrefix | protocol/mhproto_client.cpp:86-88 | a file agrees with the source on every chunk if and only if the source is its prefix |
| ChunkLayout.GetPayLoadArray | protocol/metadata.cpp:542-559 | the same sizes as initControlData, for every chunk |
| SemaphoreLock.Semaphore.constructor | protocol/semaphore.cpp:53-59 | free at first |
| SemaphoreLock.Semaphore.GetLock | protocol/semaphore.cpp:68-80 | enters exactly if nobody holds it |
| SemaphoreLock.Semaphore.ReleaseLock | protocol/semaphore.cpp:82-94 | free again |
| SemaphoreLock.Semaphore.ProcessEnds | protocol/semaphore.cpp:73 | SEM_UNDO frees the lock exactly when its holder ends |

## Left out

- Connecting, accepting, forking, argument parsing, path and string helpers, shared memory and semaphore keys: plumbing of the operating system.
- The monitor process and all display code: they only read and print.
- The MD5 algorithm: a parameter. Upload digests: snd_md5sum is never filled, so nothing is claimed about digests of uploaded chunks.
- Interrupt handling during an upload: meta_file_ is never set there, so the code promises no recovery; the model lets workers stop and die, and says what is left.
- A second control-C: workers killed by it are taken as dead before the reset. Recovering while workers of a crashed client are still running is not modelled.
- Local writes that fall short or fail, and other processes that see a half-written array: writes are atomic and complete, except that a worker can die inside its write to the local file.
- In DownloadLoop and UploadLoop the other processes are a function applied to the metadata file at each wait, and only this worker writes its view of the local file; the interleaving of many workers on both files is the machines' part.
- Server.MhProtoServer.InitUpload: keeps the path as it is sent; the base name that AbsoluteFile cuts out of it, and the name of the metadata file made from it, are not modelled.
- Server.MhProtoServer.SendMetadataToClient: a negative chunk size or a path longer than the buffer stops the model; the bytes behind the name in the header are a parameter, because the code never sets them.
- Client.DownloadMetadataFromServer: a header with a meaningless chunk count stops the model; the in-use byte of the file it makes is a parameter, because the code never sets it.
- DownloadLoop.DownloadTurn: the same Derailed case as its loop, next line.
- Client.FetchChunk: the same case, Overran.
- DownloadLoop.DownloadFileFromServer: a size field outside 0 to MAX_CHUNK_SIZE stops the model (Derailed), because the code's behaviour is then undefined; with the server's own bytes it cannot happen.
- Server.MhProtoServer.SendChunkToClient: requests outside the chunk table and headers with meaningless counts stop the model, because the code then reads beyond its table. After a request field that comes short only the bound of ten is stated, not what is answered.
- Server.MhProtoServer.LoadChunkFromFile: after a short read of the source the rest of the chunk is not specified; it is allocation contents in the code.
- Server.MhProtoServer.ReceiveChunkFromClient: states what happens to complete records; after a short read the code writes stale buffer contents and the model zeros.
- MetadataObject.Metadata.LoadMetadata: a cut-off header, a negative chunk count, one of 2^26 or more (where the loader's int overflows) and a status outside the five are one result, Unreadable; the code goes on with meaningless fields.
- Sockets.SoRead: an EAGAIN in the middle of a message ends the read with a short count, as in the code; retries after such a count are not modelled.
- Chunk counts above the range of int: the loops count in int.
