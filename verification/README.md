# Verified model of the control server and its upload queue

A Dafny 4.11 model of the stateful parts of this repository, with proofs. `dafny verify dfyconfig.toml` checks all of it.

Five components are modelled, each by what the code does rather than by what its documentation says.

**The durable operation protocol** (`src/transport_runtime.rs`, `migrations/0001_durable_operations.sql`).
`Journal` is the journal object over its three tables, with the schema's constraints as part of its invariant. `Protocol` is
the machine of any number of workers over those tables, one action per effect of `handle_jetstream_message`; a worker may be
killed between any two effects, a database call may abort or commit and lose its answer, the broker may hand any bytes to any
worker at any time and any number of times, and a publication may be stored, dropped as a duplicate, lost, or stored with its
acknowledgement lost. `Guarantees` holds what is true of every run, `Answers` what results and refusals tell the other side.
`Handler` is `handle_jetstream_message` as a program over the journal object, proved to be one run of the machine, for any
worker among any others.

**The resumable upload** (`apps-script/src/06_UploadQueue.gs`, `apps-script/src/04_DriveBackup.gs`). `Upload` is the machine:
the saved job, a run's copy, Drive, and YouTube's sessions. `UploadQueue` is `processUploadJob_` as a program over them,
proved to be a run of the machine, with exact chunk counts when nothing fails. `Idempotency` is the reservation protocol of
`startUploadJob_` for one key and any number of interleaved attempts.

**HTTP video ingest** (`apps-script/src/04_DriveBackup.gs`): `Ingest`.

**Codecs**: `DataPlane` (identifiers, admission, frames), `Hex` and `Attestation`, `Csv`, `Sanitizer`.

**Shutdown** (`src/server/shutdown.rs`): `Shutdown`, the state machine over all trigger sequences and the supervisor.

A run is a sequence of actions, and an action that is not enabled changes nothing, so a statement about all sequences is a
statement about all interleavings. Functions that the code takes from libraries (SHA-256, HMAC-SHA256, JSON) are parameters:
arbitrary deterministic functions. Where a result needs more of them, its `requires` says so.

## Where code and documentation differ

- `UPSERT_COMPLETED_STATUS_SQL` (src/transport_runtime.rs:50) inserts a row without the NOT NULL column `subject`
  (migrations/0001_durable_operations.sql:20). A database that checks NOT NULL before it looks for the conflict rejects
  every completion. `Rules.strictNotNull` is that question. With `false`, the evident intent, the statement updates the row that
  `claim` created. With `true`, `Guarantees.StrictNotNullNeverFinishes` proves that no operation ever finishes. All other
  results hold either way; where it matters it is part of the condition proved.
- Nothing bounds a reply before `complete` (src/transport_runtime.rs:635-636), while the column is bounded. A worker whose
  reply is too long keeps its claim and can never finish it: `Guarantees.FinishableIffOwned` is the exact condition.
- README.md:187-188 says that unpublished results are resumed after redelivery. That holds while a message can still be
  admitted (`Guarantees.OnePassRecovers`). Admission ends at the deadline, at most 30,000 ms after any earlier admission
  (`DataPlane.AdmissionIsOneWindow`), the acknowledgement wait is 30 s (src/transport_runtime.rs:541), and nothing sweeps the
  outbox. `Guarantees.PublishableIffServable` is the exact condition for a finished result to be published after all, and
  `Guarantees.LimitsAreReached` gives concrete runs that end in a result nobody can publish and in a claim nobody can finish.
- apps-script/HTTP-API.md:88 promises an exact replay for a retried `controlRequestId`. When the first call dies between Drive
  create and receipt, the recovery branch meant for that (apps-script/src/04_DriveBackup.gs:115-134) cannot write its
  receipt, because `properties` at line 118 hides the store; `Ingest.KilledCallIsNotRecovered` proves what happens instead.
- apps-script/HTTP-API.md:115 promises one job per idempotency key. What breaks it is a reservation that is granted
  (apps-script/src/06_UploadQueue.gs:103-117) while a job is saved or another attempt may still save one:
  `Idempotency.SecondJobIffDoubles` is the exact condition in every state of every run, and as long as no such grant happens
  `Idempotency.OneJobPerKey` holds whatever else does. A grant can double because an old reservation has expired
  (`Idempotency.WaitingLeadsToADouble`), or because a failed retry has withdrawn its own and left nothing that could expire
  (`Idempotency.FailedRetryLeavesNoGuard`). Attempts that end within 15 minutes of drawing their stamp and are not killed
  between saving and recording never meet one (`Idempotency.PromptAttemptsShareOneJob`).
- A job killed while `finalizing` has its video and is never picked up again, because the trigger does not look for that
  status (apps-script/src/06_UploadQueue.gs:450-452). `Upload.CompletableIffSeen` is the exact condition for a job to be
  completed after all, and `Upload.FinalizingIsReachable` a run to such a job.
- `startUploadJob_` saves its job twice without the lock (apps-script/src/06_UploadQueue.gs:67, 73).
  `Upload.UploadedBytesAreTheBackup` allows the second save at any moment. `Upload.SecondSaveIffSpoils` gives, for every
  reachable moment, the exact condition under which it leads to a second video, and `Upload.SpoilingIsReachable` a run to one.

## Assumptions about the outside

- Each journal call is one atomic transaction; its time stamps are modelled only as set or not set.
- A YouTube session (`Upload.Receive`) appends bytes only where the request says they belong, reports no more than it holds,
  finishes only with all bytes, keeps answering 200 or 201 once finished (or a 5xx or another error), and never finishes
  after it has answered 404. It may finish although its answer is lost, is an error, or is not JSON. A 308 without a `Range`
  header is a report of position 0.
- Drive answers a range with some prefix of that range, with the whole file, or with an error.
- Identifiers drawn for reservations and jobs never repeat, and clocks do not run backwards.
- Files in the Drive inbox are not removed or changed by others.

## Model

| member | source | states |
|---|---|---|
| Guarantees.EveryRunIsSafe | src/transport_runtime.rs:574-674 | over every run of any number of workers, with faults and deaths anywhere: execution starts at most once per operation; all publications of one operation are identical, equal to the stored outbox payload, and on the result subject; `delivered_at` is set only after a publication; an acked message has a completed row under its own subject and hash, a delivered outbox row and a publication |
| Guarantees.EveryResultIsAReply | src/transport_runtime.rs:628-637 | over every run, each completed row and each publication is the encoded reply, written out for each outcome of the service, to a signed message of that operation, subject and hash |
| Answers.ResultsTellTheOutcome | src/transport_runtime.rs:151-172 | over every run a completed row is, shape by shape, `invalid_request` if its operation was never started, else its one logged outcome: the returned result and no error, the failure's code and no result, or `operation_timeout`; no operation has two outcomes |
| Answers.RefusalsHaveAReason | src/transport_runtime.rs:640-654 | over every run a `Nak` went to a message whose own subject and hash are in the row of its operation, and a `Term` to one that was inadmissible at some instant or whose operation has another subject or hash |
| Guarantees.AdmittedExactly | src/transport_runtime.rs:581-622 | admission accepts a message exactly when it is at most 64 KiB of text that parses to that request, valid for this transport now, and signed under the key |
| Guarantees.StartsAreOwnedAndTimely | src/transport_runtime.rs:151-167 | an execution starts only in the hands of the claim's owner, on its own processing row with its own hash, and before the deadline |
| Guarantees.StepRefines | src/transport_runtime.rs:298-442 | every concrete step moves at most one operation's abstract register, by one transition absent, reserved, finished, announced, delivered, or leaves it alone |
| Guarantees.RegistersOnlyAdvance | src/transport_runtime.rs:298-442 | along every run the first claimant's subject and hash and the first result never change and no register goes back |
| Guarantees.StatusIsMonotone | src/transport_runtime.rs:444-475 | the owner's status reads go missing, processing, completed with one fixed result, never back; anyone else reads missing for ever |
| Guarantees.OnePassRecovers | src/transport_runtime.rs:624-673 | from every reachable state with a completed row, one undisturbed pass of an idle worker over the same admissible bytes ends published, delivered and acked, with the result unchanged |
| Guarantees.HeldResultIsSettled | src/transport_runtime.rs:655-673 | a worker that holds the stored result acknowledges its message in four undisturbed steps without touching the inbox |
| Guarantees.OrphansStayForEver | src/transport_runtime.rs:361-365 | a `processing` row whose claiming worker is gone stays `processing` in every continuation |
| Guarantees.FinishableIffOwned | src/transport_runtime.rs:628-638 | an unfinished claim can still be completed by some continuation if and only if the database accepts completions, some worker owns it, and that worker does not already hold a reply that is too long or no text; only the timeout and refusal replies are taken to fit |
| Guarantees.PublishableIffServable | src/transport_runtime.rs:605-673 | a finished, unpublished result can still be published by some continuation if and only if a worker past admission carries a message of its operation, subject and hash, or such a message is admissible now or later |
| Guarantees.StrandedResultsAreNeverPublished | src/transport_runtime.rs:655-673 | without such a worker and message the result stays as it is in every continuation |
| Guarantees.OrphansArise | src/transport_runtime.rs:623-634 | every admissible message leaves a claim without owner when its worker dies right after the claim |
| Guarantees.StrandedArise | src/transport_runtime.rs:636-658 | every admissible message leaves a result that is never published when its worker dies right after `complete` and 30 s pass, unless another readable message has its hash |
| Guarantees.LimitsAreReached | src/transport_runtime.rs:574-674 | for one concrete configuration and message, runs that end in both |
| Guarantees.StrictNotNullNeverFinishes | src/transport_runtime.rs:50 | with a database that rejects the subject-less row first, no run completes, publishes or acks anything |
| Protocol.RunKeepsInv | src/transport_runtime.rs:574-674 | the whole invariant (table agreement, at most one owner per operation, what each worker relies on, what each log entry means) holds along every run |
| Protocol.StepKeepsInv | src/transport_runtime.rs:501-572 | interference freedom: a forward step on one operation by its owner keeps what every other worker and log entry relies on |
| Protocol.TakeIsForward | src/transport_runtime.rs:298-442 | every move changes the rows of one operation only, keeps a completed row, an outbox payload and a delivery mark, and only extends the logs |
| Journal.SeaOrmOperationJournal.Claim | src/transport_runtime.rs:298-366 | one claim transaction, with aborts and lost answers, keeps the tables valid and has exactly the meaning of `ClaimTables` |
| Journal.SeaOrmOperationJournal.Complete | src/transport_runtime.rs:368-406 | one completion transaction over inbox, status and outbox keeps the tables valid and has exactly the meaning of `CompleteTables` |
| Journal.SeaOrmOperationJournal.MarkResultPublished | src/transport_runtime.rs:432-442 | marks exactly the undelivered outbox row of the operation and nothing else |
| Journal.SeaOrmOperationJournal.Pending | src/transport_runtime.rs:408-430 | returns the undelivered outbox row's subject and payload, or nothing |
| Journal.SeaOrmOperationJournal.Status | src/transport_runtime.rs:444-475 | returns status and result to the claiming subject only, and an error for a stored result that is no JSON |
| Journal.SeaOrmOperationJournal.constructor | migrations/0001_durable_operations.sql:4-33 | empty tables satisfy every constraint and agree |
| Journal.ClaimKeepsTables | src/transport_runtime.rs:318-365 | a claim conflicts exactly when subject or hash differ from the first claimant's, changes nothing unless it is new, replays only the outbox payload, and keeps schema and agreement |
| Journal.CompleteKeepsTables | src/transport_runtime.rs:368-406 | completion keeps schema and agreement, succeeds exactly on a processing row with a UTF-8 result that fits, and never twice |
| Journal.MarkKeepsTables | src/transport_runtime.rs:432-442 | marking keeps schema and agreement and leaves nothing pending |
| Journal.StrangersSeeNothing | src/transport_runtime.rs:54-55 | a status answer differs from that for a missing id exactly when the asker is the claimant |
| Journal.FingerprintIsHashText | src/transport_runtime.rs:767-770 | every fingerprint passes the `request_hash` check |
| Journal.FingerprintTellsDigestsApart | src/transport_runtime.rs:767-770 | two messages have one fingerprint exactly when they have one digest |
| Journal.ClaimantReadsItsResult | src/transport_runtime.rs:457-472 | the claimant of a completed operation is told the stored result exactly when it reads as JSON, and an error exactly when it does not |
| Handler.JetStreamConsumer.Handle | src/transport_runtime.rs:574-674 | one call, whatever fails in it, is exactly one run of the protocol's steps for that message, and its answer is read off the message, the clock, the old inbox row and what failed: `Term` if inadmissible or another's, `Nak` while processing, `Ack` once published and marked, else none |
| Handler.AnswerOfAPass | src/transport_runtime.rs:574-674 | the steps of one pass log exactly that answer, for every choice of faults |
| Handler.PassOfAnyWorker | src/transport_runtime.rs:556-569 | a pass by any worker of any state leaves the other workers where they are, has the effect on shared state and logs of the pass taken alone, and keeps the invariant |
| Handler.JetStreamConsumer.Process | src/transport_runtime.rs:624-654 | the four claim outcomes lead to execution, replay, `Nak` for a processing row of its own, and `Term` for another's |
| Handler.JetStreamConsumer.Work | src/transport_runtime.rs:628-638 | a new claim is executed once and completed before anything is published |
| Handler.JetStreamConsumer.Execute | src/transport_runtime.rs:151-172 | executing a claimed message is exactly the protocol's begin and finish of that worker, logs its outcome, and keeps the invariant, so the service starts at most once per operation and only while the request is valid |
| Handler.JetStreamConsumer.Deliver | src/transport_runtime.rs:655-673 | the second half of a pass, from the stored result to the ack, is a run of the protocol's steps |
| DataPlane.AdmissionIsOneWindow | src/web_data_plane.rs:47-77 | an admitted envelope stays admissible exactly during one window ending at its deadline, so any two admissions are less than 30,000 ms apart, and its identifiers fit the schema |
| DataPlane.ValidatedExactly | src/web_data_plane.rs:47-77 | an envelope validates exactly under version 1, the three identifier bounds, 16 KiB, a deadline at most 30,000 ms ahead, and what its way of transport asks for |
| DataPlane.RefusalNamesTheFirstFailure | src/web_data_plane.rs:47-77 | each error names the first failing check: everything before it has passed |
| DataPlane.ValidIdentifiersAreTrimmed | src/web_data_plane.rs:265-274 | an identifier is valid exactly when it is non-empty, within its bytes, free of control characters, and unchanged by trimming both ends |
| DataPlane.CharactersFitInBytes | src/web_data_plane.rs:265-274 | the byte bound on identifiers implies the schema's bound in characters |
| DataPlane.EncodeFrame | src/web_data_plane.rs:230-243 | a serialization error, a payload over the maximum, or the length of the serialized envelope as four bytes, most significant first, followed by it |
| DataPlane.FramingIsABijection | src/web_data_plane.rs:239-254 | a byte string is taken for a payload's frame exactly when it is that frame within the maximum: nothing missing, nothing trailing |
| DataPlane.DecodesExactlyFrames | src/web_data_plane.rs:245-256 | the decoder answers with an envelope exactly for the frames of its JSON texts within the maximum; every failure is the same error |
| DataPlane.DecodeUndoesEncode | src/web_data_plane.rs:230-256 | an encoded envelope decodes to itself exactly when its JSON text parses back |
| DataPlane.NoFrameIsAProperPrefix | src/web_data_plane.rs:230-243 | a frame that is a prefix of a frame is that frame |
| DataPlane.FirstFrameIsUnique | src/web_data_plane.rs:230-243 | two streams that are equal start with equal frames and go on equally |
| DataPlane.SplitUndoesStream | src/transport_runtime.rs:210-215 | any concatenation of frames splits back into exactly the payloads, in order |
| DataPlane.StreamUndoesSplit | src/transport_runtime.rs:210-215 | whatever splits is the concatenation of the frames of its parts |
| Attestation.VerifyAcceptsExactly | src/transport_runtime.rs:711-728 | verification accepts exactly the prefix followed by 64 hex digits of either case that spell the MAC of the encoded envelope, with a long enough key; all failures are the same error |
| Attestation.VerifyAcceptsSigned | src/transport_runtime.rs:692-706 | what was signed verifies under the same key and envelope |
| Hex.DecodeUndoesEncode | src/transport_runtime.rs:737-765 | reading back an encoded 32-byte value gives the value |
| Hex.EncodeUndoesDecode | src/transport_runtime.rs:737-765 | exactly the 64-digit texts decode, and encoding the result gives the text in lower case |
| Hex.DecodeIgnoresCase | src/transport_runtime.rs:748-755 | the lower-case text decodes to the same bytes |
| Hex.EncodedIsLowerHex | src/transport_runtime.rs:757-765 | encoded text is lower-case hexadecimal |
| Hex.EncodedDigits | src/transport_runtime.rs:757-765 | each byte becomes two of the digits 0 to f, high nibble first |
| Hex.PushHex | src/transport_runtime.rs:757-765 | the loop that pushes two digits per byte computes the encoding |
| Hex.FillPairs | src/transport_runtime.rs:741-744 | the loop that fills a buffer pair by pair computes the decoding |
| Hex.FillSha256 | src/transport_runtime.rs:737-746 | length and alphabet are refused before anything is decoded; otherwise the buffer is the decoded digest |
| Hex.DecodeNibble | src/transport_runtime.rs:748-755 | succeeds exactly on hexadecimal digits, with the value whose digit is the character in lower case |
| Upload.UploadedBytesAreTheBackup | apps-script/src/06_UploadQueue.gs:200-376 | over every run of effects, with kills, partial chunks, expiries, 5xx and the unserialized second save: each session holds a prefix of the backup, no saved position is ahead of its session, and `finalizing` or `complete` means the session holds exactly the backup |
| Upload.AtMostOneVideo | apps-script/src/06_UploadQueue.gs:218-277 | unless a second save lands while the job names a later session that has finished or that a run is filling, at most one session of a job ever finishes |
| Upload.SecondSaveIffSpoils | apps-script/src/06_UploadQueue.gs:67-73 | at any moment, during a run or between runs, a second save can lead to a second video if and only if the job names a later session that has finished or that a run is still filling |
| Upload.SpoilingIsReachable | apps-script/src/06_UploadQueue.gs:264-272 | for every backup, a run whose session expires reaches such a moment after its restart |
| Upload.LiveRunCanFinish | apps-script/src/06_UploadQueue.gs:223-262 | a run with a live session, whatever it heard last, can finish it |
| Upload.CompletableIffSeen | apps-script/src/06_UploadQueue.gs:449-458 | from every reachable moment, runs started by the trigger can still complete the job if and only if it is complete, its status is one the trigger looks for, or a run is at work on it |
| Upload.UnseenJobStays | apps-script/src/06_UploadQueue.gs:450-452 | left between runs in any other status, its record never changes again |
| Upload.FinalizingIsReachable | apps-script/src/06_UploadQueue.gs:241-248 | for every backup, a run that is killed right after saving `finalizing` leaves such a job, with its video finished |
| Upload.ChunkIsTheRange | apps-script/src/04_DriveBackup.gs:262-284 | whatever passes the length check is exactly the range asked for, so a full-body 200 passes only when it is the range; ranges are non-empty, inside the file, at most 8 MiB, and end on a multiple of 256 KiB when they start on one and are not last |
| Upload.ReceiveKeepsPrefix | apps-script/src/06_UploadQueue.gs:229-272 | an honest session that gets a chunk belonging at its stated place goes on holding a prefix, whether or not its answer arrives, and its reports and completions are truthful |
| Upload.RunKeepsInv | apps-script/src/06_UploadQueue.gs:200-376 | the invariant over saved job, running copy, last answer and all sessions holds along every run |
| Upload.RunKeepsOneVideo | apps-script/src/06_UploadQueue.gs:264-272 | along every orderly run only the session the saved job names can have finished |
| UploadQueue.UploadJob.ProcessUploadJob | apps-script/src/06_UploadQueue.gs:200-323 | one run answers a complete job with itself, a cancelled one with `JOB_CANCELLED`, and any other with the job as stored, completed or queued, exactly when it has not failed, else with the cause of its first failure; it is a run of the machine whatever the server answers, sends at most 12 chunks and none after the deadline, and without faults exactly the lesser of its limit and the chunks still needed |
| UploadQueue.UploadJob.ProcessAllPendingUploads | apps-script/src/06_UploadQueue.gs:449-460 | successive trigger visits never touch a job that is finalizing, complete or cancelled; without faults the visits together send exactly ceil(remaining / 8 MiB) chunks, six a visit, and finish the job |
| UploadQueue.UploadJob.VisitJob | apps-script/src/06_UploadQueue.gs:450-457 | one visit continues where the last one stopped |
| UploadQueue.UploadJob.ChunkLoop | apps-script/src/06_UploadQueue.gs:223-297 | the loop sends no more chunks than its limit, keeps the invariant through every exit, and without faults sends whole consecutive chunks |
| UploadQueue.UploadJob.PutChunk | apps-script/src/06_UploadQueue.gs:225-296 | a wrong length from Drive stops the run before any byte is sent; otherwise one PUT, and each answer of the session has its own outcome and next position |
| UploadQueue.UploadJob.PutBody | apps-script/src/06_UploadQueue.gs:228-296 | the PUT of a chunk that was read: the next job, saved, is exactly what the session's answer says |
| UploadQueue.UploadJob.HandleReply | apps-script/src/06_UploadQueue.gs:241-296 | each answer has its own outcome and next job: finish, resume at the reported position, restart at 0 in a new session, leave a 5xx to be reconciled, or fail with its own error, also when a 200 or 201 holds no JSON |
| UploadQueue.UploadJob.SyncResumableUploadState | apps-script/src/06_UploadQueue.gs:325-376 | the status query sends no bytes, is a run of the machine, and against a live session brings the position to exactly what the session holds |
| UploadQueue.UploadJob.RestartSession | apps-script/src/06_UploadQueue.gs:264-272 | a gone session is replaced by a new one at position 0 and saved, or the run fails |
| UploadQueue.UploadJob.Reconcile | apps-script/src/06_UploadQueue.gs:274-284 | after a 5xx one status query and no other PUT; the run ends finished, or queued at the reported position, in a new session or where it was, or fails with the query's own error |
| UploadQueue.UploadJob.SendChunks | apps-script/src/06_UploadQueue.gs:222-306 | loop and end of run together; without faults an exact chunk count and final status |
| UploadQueue.ChunkLimit | apps-script/src/06_UploadQueue.gs:210-223 | for every argument, fractional and unreadable ones included, the number of rounds that may start: the ceiling clamped to 1 and 12, or six by default |
| UploadQueue.ChunksAreRoundedUp | apps-script/src/06_UploadQueue.gs:223-225 | the chunks needed for a number of bytes are its eight-mebibyte parts, rounded up |
| Idempotency.OneJobPerKey | apps-script/src/06_UploadQueue.gs:1-153 | for any interleaving, delay and death of any attempts on one key, as long as no reservation is granted while a job is saved or may still be saved: at most one job is saved, every answer names it, and a `JOB:` binding names a saved job |
| Idempotency.LaterAttemptsReturnTheJob | apps-script/src/06_UploadQueue.gs:104-106 | once bound, every later attempt is answered with that job and changes nothing |
| Idempotency.CommittedJobIsFound | apps-script/src/06_UploadQueue.gs:80-106 | a commit that finds its own reservation or no entry is followed by the same answer to the next attempt, which reserves nothing |
| Idempotency.ReleasedJobIsFound | apps-script/src/06_UploadQueue.gs:138-153 | a failing attempt leaves its job bound exactly if it was saved, and withdraws no reservation but its own |
| Idempotency.SecondJobIffDoubles | apps-script/src/06_UploadQueue.gs:103-117 | in every state of every run, whatever was granted before, a reservation can lead to a second job without any further one if and only if that was possible already or it is granted while a job is saved or another attempt may still save one |
| Idempotency.SecondJobIffPossible | apps-script/src/06_UploadQueue.gs:46-82 | without any further reservation a second job can come if and only if two are saved, one is and an attempt may save another, or two attempts may |
| Idempotency.ReservingMakesTwoPossible | apps-script/src/06_UploadQueue.gs:103-117 | a reservation makes a second job possible exactly if it is such a grant |
| Idempotency.CivilRunKeepsOne | apps-script/src/06_UploadQueue.gs:93-153 | nothing else ever makes a second job possible |
| Idempotency.FailedRetryLeavesNoGuard | apps-script/src/06_UploadQueue.gs:147-149 | a run in which a retry is granted, fails and withdraws its reservation reaches a saved job without any reservation, where the next attempt is granted at once |
| Idempotency.PromptAttemptsShareOneJob | apps-script/src/06_UploadQueue.gs:82-99 | attempts that end within 15 minutes of drawing their stamp, the wait for the lock included, and are not killed between saving and recording share one job |
| Idempotency.SavedOnceIsReachable | apps-script/src/06_UploadQueue.gs:67-82 | a run reaches a saved job that is not recorded yet |
| Idempotency.WaitingLeadsToADouble | apps-script/src/06_UploadQueue.gs:110-116 | from there the next attempt doubles exactly when 15 minutes have passed, whether the first was killed or dawdles |
| Idempotency.RunKeepsInv | apps-script/src/06_UploadQueue.gs:93-153 | along every run without such a grant, a working attempt owns the property and the only job, and a failing one that was replaced can do nothing |
| Idempotency.UploadReservations.Reserve | apps-script/src/06_UploadQueue.gs:93-121 | the stamp drawn before the wait for the lock, and for each old entry the exact answer at a later instant: a saved job is returned, a younger reservation than 900,000 ms refuses, anything else is granted and recorded; no refusal changes anything, and no key with another hash is touched |
| Idempotency.UploadReservations.Commit | apps-script/src/06_UploadQueue.gs:123-136 | binds the job exactly if the reservation is still there or nothing is |
| Idempotency.UploadReservations.Release | apps-script/src/06_UploadQueue.gs:138-153 | binds a job that was saved, else withdraws the own reservation only, else leaves the entry alone |
| Ingest.VideoInbox.IngestHttpVideo | apps-script/src/04_DriveBackup.gs:41-170 | one call over receipts and folder has exactly the effect and outcome of `Handle`, which the next three rows spell out |
| Ingest.AcceptedIsAsDeclared | apps-script/src/04_DriveBackup.gs:41-82 | whatever is accepted is 1 byte to 8 MiB of a video with its container's signature bytes, whose digest is the 64 hex digits sent along, answered, and recorded with the file |
| Ingest.FirstFailingCheckDecides | apps-script/src/04_DriveBackup.gs:41-90 | a request is refused with the code of its first failing check, and then nothing changes |
| Ingest.StoreDecidesTheRest | apps-script/src/04_DriveBackup.gs:92-166 | past the checks an unreadable receipt, another digest under the receipt, and a taken name each have their own refusal; a free name is stored |
| Ingest.ReceiptsAreWrittenOnce | apps-script/src/04_DriveBackup.gs:92-154 | over every sequence of calls receipts are never changed, stay readable, and go on naming an existing non-empty video file with their digest |
| Ingest.LaterCallsReplayOrConflict | apps-script/src/04_DriveBackup.gs:93-113 | after a receipt, whatever calls come between, the same content returns the same file as a replay even under another name, another digest conflicts, and neither changes anything |
| Ingest.ReplayReturnsTheContent | apps-script/src/04_DriveBackup.gs:101-112 | when nothing else has the digest of the bytes sent, a call is accepted exactly when the file holds those bytes |
| Ingest.FirstCallStoresIffNameIsFree | apps-script/src/04_DriveBackup.gs:115-166 | a first valid call stores its bytes exactly when no inbox file has the name it picks, and otherwise changes nothing |
| Ingest.CompletedCallsCreateOneFileEach | apps-script/src/04_DriveBackup.gs:136-154 | as long as no call dies between create and receipt, each request has created exactly one file if it has a receipt and none otherwise |
| Ingest.KilledCallIsNotRecovered | apps-script/src/04_DriveBackup.gs:115-134 | after a death between create and receipt and any later calls, as long as the request has no receipt, the same call fails and changes nothing, and a renamed one stores the bytes once more |
| Ingest.ConstantTimeEquals | apps-script/src/01_Utils.gs:155-164 | the accumulator is zero exactly for equal texts |
| Csv.ReadBackIffNoEmptyRow | apps-script/src/07_Analytics.gs:59-67 | a reader of section 2 of RFC 4180 with LF between records recovers exactly every cell's text, null as empty, if and only if every row has a cell |
| Csv.PrintIsInjective | apps-script/src/07_Analytics.gs:59-67 | different text tables without empty rows print differently |
| Csv.CellIsRead | apps-script/src/01_Utils.gs:224-228 | an escaped cell reads back as its text whatever it contains |
| Csv.QuotedIffNeeded | apps-script/src/01_Utils.gs:224-228 | a cell is printed as its text exactly when it has no quote, comma or line end, and between quotes otherwise |
| Csv.LineIsRead | apps-script/src/07_Analytics.gs:62-66 | a printed row reads back cell by cell |
| Csv.ExportLines | apps-script/src/07_Analytics.gs:62-67 | the loop that pushes lines prints the header row and all rows |
| Sanitizer.SanitizedIsSafe | apps-script/src/01_Utils.gs:12-35 | for every value nothing but `[redacted]` is left under a sensitive key at any depth, and the depth, width and text bounds hold everywhere |
| Sanitizer.SensitiveExactly | apps-script/src/01_Utils.gs:24 | a key counts as sensitive exactly when one of the ten alternatives of the pattern, `.?` included, matches somewhere in it, whatever its case |
| Sanitizer.LeavesBecome | apps-script/src/01_Utils.gs:12-35 | null and undefined become null, anything deeper than 4 `[truncated]`, texts keep their first 500 units, numbers and booleans stay |
| Sanitizer.SanitizerIsAProjection | apps-script/src/01_Utils.gs:12-35 | a value is left as it is exactly when it is clean, and sanitizing again changes nothing |
| Sanitizer.ShownValuesSurvive | apps-script/src/01_Utils.gs:16-31 | along every path within the bounds and off sensitive keys the result holds what the original holds there, sanitized, and nothing where there is nothing |
| Sanitizer.LookupCommutes | apps-script/src/01_Utils.gs:22-31 | looking a key up in the clean object is sanitizing what the original holds under it |
| Sanitizer.SanitizeErrorDetails | apps-script/src/01_Utils.gs:12-35 | the recursive loops that fill fresh arrays and objects compute `Sanitize` |
| Shutdown.ClosedFormIsExact | src/server/shutdown.rs:81-128 | for every trigger sequence, final state and emitted actions are exactly those read off the first signal and the first deciding trigger after it; at most one `BeginGraceful`, then at most one of `Force` and `Complete` |
| Shutdown.StateInClosedForm | src/server/shutdown.rs:81-128 | the state machine meets that reading on every sequence |
| Shutdown.PhaseOnlyMovesForward | src/server/shutdown.rs:81-128 | more triggers never take the phase back or retract an action, and change nothing once the drain is decided |
| Shutdown.SuperviseWithTriggers | src/server/shutdown.rs:225-395 | for every order of events the supervisor's state, signal count and server calls are those of the machine on the triggers it accepted, and its verdict is the one the next two rows read off the events |
| Shutdown.VerdictBeforeShutdown | src/server/shutdown.rs:232-259 | the first server end or received item decides by its kind: outcome, error, refused trigger, or a signal that starts the drain; without any the supervisor waits |
| Shutdown.VerdictAfterSignal | src/server/shutdown.rs:299-395 | after the signal, the first server end, received item, deadline, or end of file while that is watched, decides by its kind, the deadline as a forced shutdown by timeout; without any the supervisor waits |
| Shutdown.ChecksFailOnlyOnForeignTriggers | src/server/shutdown.rs:256-338 | the first check fails exactly on a first trigger that is no signal, the second exactly when the channel delivers a completion or an end of file the machine ignores |
| Shutdown.SignalsPassBothChecks | src/server/shutdown.rs:256-338 | with triggers from `Signals::recv` neither check can fail |
| Shutdown.SignalTaskFeedsSignals | src/server/shutdown.rs:203-218 | a channel fed by the signal task carries signals and errors only |
| Shutdown.ForwardsInOrder | src/server/shutdown.rs:203-217 | the signal task forwards what each stream says in order, up to the first that ends, as its error |
| Shutdown.Drain | src/server/shutdown.rs:302-395 | the second race ends in completion, a forced shutdown, a failed check or an error, with the calls owed |
| Shutdown.ForceShutdown | src/server/shutdown.rs:320-395 | the forcing trigger closes every connection, counts if it is a signal, and ends settled, failed or aborted |

## Left out

- NATS, TLS, PostgreSQL, Drive and YouTube clients: their visible outcomes are the environment's choices; consumer permits, `max_deliver` and timers only remove behaviours the model allows.
- Broker deduplication beyond one message id and its 120 s window: `Deduplicated` stores again once nothing was published; a copy stored after the window is `Stored`.
- DataPlane.AdmissionIsOneWindow: the serialized envelope is a given byte string; the 32-bit overflow of a frame length is excluded by the 64 KiB maximum.
- The mTLS TCP path around `process_payload`, and bearer-token shape checks.
- `startUploadJob_` validation, backup copy and manifests: they appear as steps that may throw or die.
- Idempotency.OneJobPerKey: time-outs of the locks in commit and release count as an attempt that throws or is killed there, and property values of neither form do not occur.
- Lock contention between upload runs: runs are serialized by the script lock, so one run at a time is modelled.
- UploadQueue.UploadJob.ProcessAllPendingUploads: follows one job; the choice of five jobs, sorting and result collection are outside.
- `finalizeUploadJob_` beyond its status change: thumbnail, playlist, manifest and e-mail are saved only at the end, so nothing is exactly-once there.
- `cancelled` has no step that sets it in the source and none here; a run only refuses it.
- Deleting or replacing Drive files by others, and a size that Drive does not report right after create, which the code treats like a death there.
- Ingest.VideoInbox.IngestHttpVideo: request fields are given as read: trimmed, sanitized, decoded, or missing.
- Csv.ExportLines: JavaScript strings are sequences of characters, so lone surrogates do not occur; writing the file is outside.
- Sanitizer.SanitizeErrorDetails: a `__proto__` key sets no property of that name; its effect on the object's prototype is not modelled.
- Shutdown.SuperviseWithTriggers: time, logging and connection counts are outside; the order in which events become ready is a parameter, and the 32-bit signal counter never passes 2.
- Configuration, flags, telemetry, routes, policies, YouTube service and web app functions: plumbing and single-branch checks.
- Finite model checks under `conformance/`, and all user interface and deployment files.
