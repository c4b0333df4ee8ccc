# Streaming ASR gateway: a verified model

A Dafny model of how audio, jobs and text move through the streaming speech-recognition gateway, and
proofs that nothing is lost, duplicated or reordered on the way.

| part | files |
|---|---|
| voice activity endpoint detector | `Vad`, `VadStream`, `VadHysteresis`, `VadAudio` |
| session buffers and accounting | `PcmBuffer`, `Sessions`, `VadSession` |
| gateway scheduler | `Jobs`, `Batching`, `Scheduler`, `SchedulerRuns`, `SchedulerDispatch`, `Delivery`, `SchedulerProgress`, `LatePublications`, `SchedulerObject` |
| sessions and scheduler together | `Linkage` |
| detector, sessions and scheduler together | `Pipeline` |
| transcript, protocol, client | `Sentences`, `Punctuation`, `Transcript`, `TranscriptObject`, `TranscriptText`, `StableCommit`, `ImmediateCommit`, `CommitAgreement`, `CommitExamples`, `Protocol`, `ProtocolObject`, `Client`, `ProtocolRuns`, `ProtocolMeaning` |
| model-owner coordinator | `Coordinator`, `CoordinatorRuns`, `CoordinatorCounts`, `CoordinatorTheorems`, `CoordinatorAdmission`, `CoordinatorProgress`, `CoordinatorFiles`, `CoordinatorObject` |
| batching adapters | `Adapter` |
| segment rollover | `Rollover`, `RolloverStream` |
| playback underrun | `Playback` |

Operations are functions on immutable values; the objects that the program updates in place are classes
whose methods are proved to do what the function of the same operation does. The concurrent parts
(scheduler, coordinator, sessions with scheduler) are transition systems: a step is what the program does
between two suspension points or under one hold of its lock, and the theorems hold in every state any
interleaving can reach. Audio is a sequence of samples, time is real, counters are unbounded integers.

Four things the program does are worth knowing, and are stated exactly rather than smoothed over:

* In CONFIRMED_PLUS_TAIL mode, and in `final` with a new tail, an event takes a number and is then dropped,
  so the client reports a gap (`ProtocolRuns.ConsecutiveExactlyWithoutSkips`, `DroppedEventShowsAsGap`).
  The repository's documentation (README.md:50, docs/API.md:356) promises only increasing numbers, which always holds.
* Something can still be published for a generation that was cancelled and waited for. It is one of three
  things (`LatePublications.OnlyThreeKinds`), each of which happens in a run that is given
  (`LateTimeout`, `LateDrainedFailure`, `LateCleanupFailure`). A job of a cancelled generation has its
  timeout published if and only if it is queued past its deadline when a run of its worker begins
  (`CancelledTimesOutExactly`); a drained failure only if it was owed before the cancellation
  (`OwedFailuresAreReported`, `CancelledIsNotOwed`).
* Committing on punctuation can refuse although the splitter found complete sentences
  (`CommitExamples.DottedCommitRefuses` gives a tail). It refuses if and only if the candidate search,
  stretch by stretch, cuts the prefix into fewer stretches than there are sentences
  (`ImmediateCommit.RefusesExactly`), and it announces the splitter's sentences if and only if every
  sentence but the last, read on its own from the stop before it, stops first where the splitter stops
  (`CommitAgreement.AnnouncesExactly`). Tails without dots are always committed.

* A file and a stream can own the model together. While the caller of a file waits there is no stream; but a
  caller that gives up after the owner thread has claimed its job and before that thread has set its own flag
  clears the only flag there is, and a stream is let in. `CoordinatorFiles.StreamPassesClaimedFile` says
  exactly when, and `FileAndStreamTogether` gives a run.

`dafny verify dfyconfig.toml` checks the project.

## Model

| member | source | states |
|---|---|---|
| `Vad.EndpointDetector.AddBytes` | app/asr_vad.py:175-179 | odd byte counts are refused without effect; otherwise the detector becomes `AddAudio` of what it was and reports that decision |
| `Vad.EndpointDetector.Finalized` | app/asr_vad.py:181-186 | nothing happens unless an endpoint is pending; otherwise the backend forgets what it heard and draining goes on with the buffered input |
| `Vad.EndpointDetector.Reset` | app/asr_vad.py:188-195 | everything held is dropped and nothing is reported |
| `Vad.EndpointDetector.Finish` | app/asr_vad.py:197-225 | whole frames are drained first; then open speech is emitted, trailing silence up to the hangover, and all else held is discarded and counted |
| `Vad.EndpointDetector.FlushBuffers` | app/asr_vad.py:197-225 | the same for what draining left in the buffers, which are empty afterwards |
| `Vad.EndpointDetector.DrainCompleteFrames` | app/asr_vad.py:227-252 | the frame loop takes whole frames until an endpoint or the end of whole frames, concatenating decisions |
| `Vad.EndpointDetector.Process` | app/asr_vad.py:254-328 | one frame through the five-state machine |
| `Vad.EndpointDetector.KeepPreRoll` | app/asr_vad.py:330-336 | the pre-roll keeps its newest samples and reports how many fell off |
| `VadStream.AddAudioChunkingIndependent` | app/asr_vad.py:175-252 | from any state, feeding `a` then `b` gives the state, audio, discard total, transitions and endpoint of feeding `a + b` |
| `VadStream.DrainStops` | app/asr_vad.py:227-252 | an endpoint is reported exactly when draining ends in FINALIZING and then costs a frame; otherwise less than a frame is left |
| `VadStream.DriveBytes` | app/asr_api.py:337-345 | the controller's loop terminates and delivers exactly the driver's tokens for that frame |
| `VadStream.DriveChunks` | app/asr_api.py:337-345 | a stream of byte chunks is refused exactly if some chunk is not whole samples; otherwise tokens, discard total and detector state are those of the joined bytes, however they were cut |
| `VadStream.FeedIsOneDrive` | app/asr_api.py:337-345 | driving a stream chunk by chunk is driving it once in one piece |
| `VadStream.ChunkingIndependentUtterances` | app/asr_api.py:337-345 | two chunkings of one stream give the same utterances, detector state and discard total |
| `VadStream.ExactTiling` | app/asr_vad.py:175-336 | over every run of feeds, endpoint hand-shakes and finishes, the stream fed is in order the emitted and dropped pieces followed by pre-roll, candidate, trailing and input buffer, with at most one of the middle three nonempty |
| `VadStream.SamplesConserved` | app/asr_vad.py:175-336 | held before plus fed equals emitted plus reported discards plus held after; nothing is held after finishing |
| `VadStream.HeldIsBounded` | app/asr_vad.py:254-336 | after every sequence of feeds, endpoint hand-shakes and finishes, a detector outside FINALIZING holds less than one frame beyond the longer of a full candidate and a full silence |
| `VadHysteresis.BeatsSpellTokens` | app/asr_api.py:337-345 | frame-by-frame decisions and the driver's tokens are the same run |
| `VadHysteresis.HysteresisExact` | app/asr_vad.py:254-336 | for every stream, a frame emits or ends an utterance exactly when the probabilities call for it: opened by a run of minimum speech (first frame at onset, the rest at offset), ended by a run of minimum silence below offset |
| `VadHysteresis.SpeechBetweenEndpoints` | app/asr_vad.py:254-328 | between two endpoints lies a confirmed run of speech and then the minimum silence |
| `VadAudio.AudioExact` | app/asr_vad.py:227-336 | for every stream, each piece of audio emitted is exactly a named stretch of it: the frame that opens an utterance emits the confirming run preceded by as much pre-roll as there is behind the last emission, every later voiced frame all that follows the last emission, an endpoint the silence as far as the hangover goes |
| `VadAudio.FinishExact` | app/asr_vad.py:197-225 | finishing then emits the rest of the stream if an utterance is open and its last frame was voiced, the hangover of its silence if not, and nothing when none is open |
| `VadAudio.FinishWhilePending` | app/asr_vad.py:197-225 | finishing before a pending endpoint was confirmed emits nothing and discards everything held |
| `VadAudio.BackendHearsExactly` | app/asr_vad.py:181-252 | each frame is judged on exactly the frames since the last endpoint, itself included |
| `VadAudio.TransitionsConnect` | app/asr_vad.py:254-328 | the transitions a call reports are a path of allowed edges from the phase before it to the phase after it |
| `PcmBuffer.PcmRingBuffer.AppendBytes` | app/asr_gateway_chunking.py:47-63 | odd byte counts and overflow are refused without effect; otherwise the absolute range of the new samples is returned |
| `PcmBuffer.PcmRingBuffer.Reserve` | app/asr_gateway_chunking.py:65-74 | at most one reservation, of the oldest samples, with their absolute range and audio |
| `PcmBuffer.PcmRingBuffer.Ack` | app/asr_gateway_chunking.py:76-82 | only the reserved range can be acknowledged, and leaves the buffer |
| `PcmBuffer.PcmRingBuffer.Undo` | app/asr_gateway_chunking.py:84-86 | only the reserved range can be rolled back, and stays |
| `PcmBuffer.PcmRingBuffer.Drop` | app/asr_gateway_chunking.py:88-95 | discards the oldest samples, never under a reservation |
| `PcmBuffer.AcceptsExactly` | app/asr_gateway_chunking.py:47-100 | an operation is refused exactly if the audio does not fit, a reservation is in the way, there are not that many samples, or the range is not the reserved one |
| `PcmBuffer.RunAccounts` | app/asr_gateway_chunking.py:47-100 | over every run of operations, what left the buffer is a gap-free sequence of stretches of the appended stream, each acknowledged chunk carrying the samples its range names, and the buffer is the rest |
| `PcmBuffer.AcknowledgedIsAppendedPrefix` | app/asr_gateway_chunking.py:47-100 | without discards the acknowledged chunks concatenate to exactly the first acknowledged samples ever appended |
| `Sessions.GatewaySession.AppendPcmBytes` | app/asr_gateway_sessions.py:84-90 | appends to the buffer; counts the samples as accepted only when asked |
| `Sessions.GatewaySession.AcceptVadInputBytes` | app/asr_gateway_sessions.py:92-108 | admits input for the detector only if buffer, detector and input together fit the limit |
| `Sessions.GatewaySession.RecordDiscardedSamples` | app/asr_gateway_sessions.py:110-113 | adds to the discards reported from outside the buffer |
| `Sessions.GatewaySession.ReserveSamples` | app/asr_gateway_sessions.py:128-136 | reserves under the next job sequence number, which is then used up |
| `Sessions.GatewaySession.AcknowledgeJob` | app/asr_gateway_sessions.py:138-145 | only the current generation's reserved job can acknowledge |
| `Sessions.GatewaySession.RollbackJob` | app/asr_gateway_sessions.py:147-154 | gives the reservation back, or reports that it was not this job's |
| `Sessions.GatewaySession.AbortSession` | app/asr_gateway_sessions.py:173-190 | drops reservation, buffer and pending detector input as discards and starts a new generation; a session already aborted or failed is left alone |
| `Sessions.GatewaySession.SucceedSession` | app/asr_gateway_sessions.py:192-195 | only with nothing reserved or buffered |
| `Sessions.EverySampleHasOnePlace` | app/asr_gateway_sessions.py:69-82 | accepted samples are acknowledged, discarded, buffered, reserved or pending in the detector, each exactly once |
| `Sessions.AbortSettles` | app/asr_gateway_sessions.py:173-190 | after an abort every accepted sample is acknowledged or discarded |
| `Sessions.ReadyCanBeReserved` | app/asr_gateway_sessions.py:115-136 | whatever `ready_samples` offers can be reserved, and is within a positive maximum |
| `Sessions.ZeroMaximumIsNoMaximum` | app/asr_gateway_sessions.py:115-126 | a maximum of zero caps nothing |
| `Sessions.ReadyExactly` | app/asr_gateway_sessions.py:115-126 | something is offered if and only if nothing is in flight, something is buffered, and a maximum or preferred amount is full or the rest is asked for; and which amount it is |
| `Sessions.AcknowledgedExactly` | app/asr_gateway_sessions.py:138-145 | the reserved job of the current generation and no other can acknowledge; exactly its audio leaves the front of the buffer |
| `Sessions.RolledBackExactly` | app/asr_gateway_sessions.py:147-154 | the reserved job and no other gives back, and no audio is touched |
| `Sessions.EndsExactly` | app/asr_gateway_sessions.py:173-195 | success is possible exactly with an empty buffer; abort and failure always end with one |
| `Sessions.FinishIsRequestedOnce` | app/asr_gateway_sessions.py:168-171 | a finish request makes an open session finishing, once, and changes nothing else |
| `Sessions.RollbackUndoesReserve` | app/asr_gateway_sessions.py:128-154 | reserve then rollback is the identity but for the sequence number |
| `VadSession.NextKeeps` | app/asr_gateway.py:225-235 | in every step of a live session the samples pending in the detector are exactly those in its buffers, and only a client frame at the door is ever refused for room |
| `VadSession.AdmissionSuffices` | app/asr_gateway_sessions.py:69-113 | over every run, audio the detector emits at ingest, endpoint continuation or finish always fits: `session_pcm_limit` is hit only in `accept_vad_input` |
| `VadSession.AdmittedExactly` | app/asr_gateway_sessions.py:92-108 | over every run a client frame is admitted if and only if it fits beside the session's buffer and the detector's content |
| `VadSession.SuccessAccountsForEverySample` | app/asr_gateway.py:421-449 | when a session succeeds, accepted equals acknowledged plus discarded |
| `VadSession.AbortAccountsForEverySample` | app/asr_gateway_sessions.py:173-190 | the same when it is aborted |
| `Jobs.BeforeOrder` | app/asr_gateway_scheduler.py:204 | the queue order (deadline, then enqueue time, then job id) is a total order |
| `Jobs.BeforeExactly` | app/asr_gateway_scheduler.py:204 | deadlines decide, then arrivals, then identifiers |
| `Jobs.SortSorts` | app/asr_gateway_scheduler.py:204 | sorting a queue permutes it into that order |
| `Batching.SelectLoop` | app/asr_gateway_scheduler.py:211-234 | the selection loop computes the greedy selection |
| `Batching.GreedyIsMaximal` | app/asr_gateway_scheduler.py:211-234 | the selection is the longest prefix of the compatible jobs within both limits |
| `Batching.SelectedBatch` | app/asr_gateway_scheduler.py:204-235 | a batch has one key, one job per session, respects both limits and is maximal |
| `Batching.FirstIsEarliest` | app/asr_gateway_scheduler.py:204-211 | the job a batch is built around is due and the earliest among the due finals if there are any, else the earliest of the queue |
| `Batching.FirstLeadsItsBatch` | app/asr_gateway_scheduler.py:204-235 | in a queue of jobs that fit, that job leads the jobs compatible with it, and no due final, or without one no job at all, comes before it |
| `Batching.DueMeansDispatch` | app/asr_gateway_scheduler.py:386-406 | in a queue of jobs that fit, any due job dispatches a nonempty batch whose head is due, is the earliest due final if there is one and the earliest job otherwise; a final head makes the batch all final |
| `Batching.ForcedRunBlockedExactly` | app/asr_gateway_scheduler.py:211-234 | a forced run sends nothing exactly when the leading job exceeds the batch limit by itself |
| `SchedulerDispatch.SendsExactly` | app/asr_gateway_scheduler.py:204-235 | a queue of jobs that fit sends something if and only if it is forced, a job is past its deadline or its longest wait, or the leading kind fills a batch with distinct sessions |
| `SchedulerDispatch.DispatchSplits` | app/asr_gateway_scheduler.py:204-241 | a dispatch sends nothing and only sorts, or divides the queue into batch and rest; other queues stay as they are |
| `SchedulerDispatch.DispatchIsUrgent` | app/asr_gateway_scheduler.py:204-241 | on the transition system: a pressing job makes the dispatch send, the batch fits, and no due final is more urgent than its head |
| `SchedulerDispatch.CancelledIsNotSent` | app/asr_gateway_scheduler.py:192-199 | a run begun after a generation was cancelled sends no job of it unless a new one arrives meanwhile |
| `SchedulerDispatch.AdmittedExactly` | app/asr_gateway_scheduler.py:132-162 | in every reachable state a job is admitted if and only if the scheduler is open, its worker healthy, its range right, and the queued and uncompleted jobs leave room |
| `SchedulerDispatch.AdmittedIsQueued` | app/asr_gateway_scheduler.py:132-162 | an admitted job is the last of its worker's queue, stamped if it was not |
| `SchedulerDispatch.ClosedAdmitsNothing` | app/asr_gateway_scheduler.py:380-385 | a closed scheduler refuses every job in every continuation |
| `SchedulerDispatch.ShutAdmitsNothing` | app/asr_gateway_scheduler.py:380-385 | so closing it ends admission for good |
| `SchedulerProgress.ForcedRunShrinks` | app/asr_gateway_scheduler.py:172-363 | every complete forced run of a worker whose queued jobs fit, with any expiries, cancellations, failures and steps for other workers in between, leaves the queue shorter or found it empty |
| `SchedulerProgress.ForcedRunsEmptyQueue` | app/asr_gateway_scheduler.py:172-363 | so from every reachable idle state as many complete forced runs as the queue has jobs, each at its own time, leave it empty |
| `SchedulerProgress.RunCanBeCompleted` | app/asr_gateway_scheduler.py:172-363 | from every state of the invariant the run in progress can be brought to its end by steps of its own |
| `SchedulerProgress.QueueCanBeEmptied` | app/asr_gateway_scheduler.py:172-363 | and so can those forced runs, at any given times |
| `Scheduler.NextKeeps` | app/asr_gateway_scheduler.py:132-373 | every step of enqueue, cancel, expiry, dispatch, completion, failure and draining, interleaved at the awaits, keeps the ledger, the sample counter and the accepted-event map exact |
| `SchedulerRuns.ExactlyOnceSettlement` | app/asr_gateway_scheduler.py:172-363 | in every reachable state a job is in exactly one of queued, on its way to rejection, rejected, at a worker, cleaned up; published at most once and only afterwards |
| `SchedulerRuns.IdleMeansSettled` | app/asr_gateway_scheduler.py:172-363 | between runs everything enqueued and no longer queued was rejected or cleaned up exactly as often as it was enqueued |
| `Delivery.CoerceIdentifies` | app/asr_gateway_scheduler.py:416-424 | a result about another job is replaced by a failure of this one, any other is left alone |
| `Delivery.DeliversExactly` | app/asr_gateway_scheduler.py:305-340 | after a cleanup a job's result is published if and only if the cleanup succeeded, the generation is not cancelled, and the result names generation and sequence; a failed cleanup publishes a failure, otherwise nothing is published |
| `Delivery.FailsExactly` | app/asr_gateway_scheduler.py:284-302 | a worker fails exactly by a raised error, a wrong number of results or a malformed one |
| `Delivery.FindsOverdue` | app/asr_gateway_scheduler.py:179-184 | a run of a healthy worker sets out to time out exactly the queued jobs past their deadline |
| `Delivery.TimeoutIsTold` | app/asr_gateway_scheduler.py:180-184 | the session of a job that timed out is told so |
| `Delivery.BatchIsDelivered` | app/asr_gateway_scheduler.py:284-346 | with clean cleanups and no cancellation of its generations, the completed run has published exactly the batch, in order, with exactly what the worker said, whatever else happens meanwhile |
| `Delivery.FailureIsDelivered` | app/asr_gateway_scheduler.py:294-363 | a failed batch is told so job by job and in order, and after it every job of the worker's queue |
| `Delivery.EveryResultNamesItsJob` | app/asr_gateway_scheduler.py:305-340 | in every reachable state every published result names the session, generation, sequence and range of the job it was published for |
| `SchedulerRuns.ScannedJobsAreStillQueued` | app/asr_gateway_scheduler.py:181-199 | removing a scanned job from its queue never fails, whatever was enqueued or cancelled meanwhile |
| `SchedulerRuns.RunCanGoOn` | app/asr_gateway_scheduler.py:172-340 | a suspended run always has an enabled step |
| `SchedulerRuns.FailedWorkerIsNeverServed` | app/asr_gateway_scheduler.py:285-363 | after a failed submission no batch goes to that worker again and its queue, once drained, stays empty |
| `SchedulerRuns.QueuedSamplesAreExact` | app/asr_gateway_scheduler.py:141-162 | the counter is the samples queued plus those of the batch not yet complete, and both limits hold in every state |
| `SchedulerRuns.FollowUpIsJudgedWithoutItsBatch` | app/asr_gateway_scheduler.py:304-346 | a job enqueued from `publish` is judged without the batch being published |
| `SchedulerRuns.AcceptedIsExact` | app/asr_gateway_scheduler.py:261-263 | the accepted-event map holds exactly the generations with an unsettled job in flight |
| `SchedulerRuns.BarrierIsQuiet` | app/asr_gateway_scheduler.py:164-170 | cancelling and then finding no accepted event makes a generation quiet |
| `SchedulerRuns.BarrierHolds` | app/asr_gateway_scheduler.py:305-337 | in every continuation no adapter-produced result of that generation is published |
| `LatePublications.OnlyThreeKinds` | app/asr_gateway_scheduler.py:181-363 | once a generation is cancelled and not accepted, a step that publishes for it publishes a queue timeout, a failure drained from a failed worker's queue, or a failed cleanup |
| `LatePublications.RunTimesOutOverdue` | app/asr_gateway_scheduler.py:181-195 | whatever happens in between, a run begun on a healthy worker publishes timeouts of exactly the jobs queued past their deadline when it began, in order, cancelled or not |
| `LatePublications.CancelledTimesOutExactly` | app/asr_gateway_scheduler.py:181-199 | once the run is past its timeouts, a job of a cancelled generation had its timeout published if and only if it was queued and overdue when the run began |
| `LatePublications.OwedFailuresAreReported` | app/asr_gateway_scheduler.py:342-363 | the failures a drained queue publishes are exactly the jobs owed one, in order |
| `LatePublications.CancelledIsNotOwed` | app/asr_gateway_scheduler.py:342-363 | no failure becomes owed to a generation that is already cancelled |
| `LatePublications.LateTimeout` | app/asr_gateway_scheduler.py:181-195 | a reachable state behind the barrier from which a timeout of the cancelled generation is published |
| `LatePublications.LateDrainedFailure` | app/asr_gateway_scheduler.py:342-363 | the same for a drained failure |
| `LatePublications.LateCleanupFailure` | app/asr_gateway_scheduler.py:196-340 | the same for a failed cleanup: the generation is cancelled while the run rejects another's job, after its scan |
| `SchedulerObject.GatewayScheduler.ReadyJobs` | app/asr_gateway_scheduler.py:141-147 | the number of jobs queued over all workers |
| `SchedulerObject.GatewayScheduler.Submit` | app/asr_gateway_scheduler.py:132-162 | refusals in the order of the checks and without effect; otherwise the job joins its worker's queue and is counted |
| `SchedulerObject.GatewayScheduler.TakeBatch` | app/asr_gateway_scheduler.py:204-241 | the queue is sorted, the selected batch leaves it, the rest stays in order, and the batch's generations are marked accepted |
| `Linkage.NextKeeps` | app/asr_gateway.py:316-397 | every action of sessions and scheduler, hooks included, keeps reservations and live jobs linked |
| `Linkage.ReservationHasOneJob` | app/asr_gateway.py:316-397 | a session with a reservation has exactly one live copy of exactly one job of its generation, carrying its sequence, range and audio |
| `Linkage.HooksNeverConflict` | app/asr_gateway.py:665-708 | cleanup of a current job always acknowledges and its rejection always gives back; a job from before an abort acknowledges nothing |
| `Linkage.AcknowledgedInOrderExactlyOnce` | app/asr_gateway.py:316-397 | through all retries, rollbacks, aborts and interleavings, every session has acknowledged exactly a prefix of what was appended, in order and once; unless it was aborted or failed, it buffers the rest |
| `Pipeline.NextKeeps` | app/asr_gateway.py:206-235 | every client frame, endpoint continuation, finish, job, hook, abort and success keeps detector, session and buffer in step, and whatever the detector lets go of finds room |
| `Pipeline.ClientAudioIsAccountedFor` | app/asr_gateway.py:206-397 | over every run of detectors, sessions and scheduler, what a client sent is in order the pieces its detector passed on and dropped and what it holds; the acknowledged audio is a prefix of what was passed on, the rest is buffered, or lost by an abort |
| `Pipeline.SuccessfulSessionHeardEverything` | app/asr_gateway.py:421-449 | when a session has succeeded, the audio its jobs acknowledged is exactly what the detector passed on, and with the dropped pieces that is all the client sent |
| `Sentences.SentenceBoundaryEnd` | app/asr_streaming.py:312-319 | the end of the run of terminators and closers behind a sentence end |
| `Sentences.SplitCommittedSentences` | app/asr_streaming.py:279-295 | the index loop computes the complete sentences and the tail |
| `Sentences.PiecesTile` | app/asr_streaming.py:279-295 | the sentences with the white space behind them, followed by the tail, are the text: no character is lost |
| `Sentences.SentencesAreStrippedPieces` | app/asr_streaming.py:279-295 | each committed sentence is its stretch of text without surrounding white space, and not empty |
| `Sentences.TailIsIncomplete` | app/asr_streaming.py:279-295 | no sentence ends inside the tail |
| `Sentences.FirstPunctuationCandidate` | app/asr_streaming.py:298-309 | the index loop computes the candidate |
| `Sentences.VisibleCounts` | app/asr_streaming.py:304 | the length of a candidate counts its characters one by one, white space left out |
| `Sentences.CandidateEndsASentence` | app/asr_streaming.py:298-309 | a candidate is long enough and stops exactly where a sentence does |
| `Sentences.FirstCandidateIsFirstSentence` | app/asr_streaming.py:298-309 | with a minimum of one character it is the splitter's first sentence, and exists exactly when that does |
| `Sentences.CutExactSentences` | app/asr_streaming.py:211-223 | the cutting loop computes `ExactSentences`, or gives up at the first empty stretch |
| `Sentences.ExactSentencesTile` | app/asr_streaming.py:211-223 | the stretches it cuts concatenate to the prefix |
| `Punctuation.DotToken` | app/asr_streaming.py:347-351 | the longest run of letters and dots that ends at the dot |
| `ImmediateCommit.AloneTiles` | app/asr_streaming.py:211-223 | searching for a candidate again and again cuts a text into nonempty stretches that join to it |
| `ImmediateCommit.RefusesExactly` | app/asr_streaming.py:206-230 | complete sentences are refused if and only if that search cuts their prefix into fewer stretches than there are sentences |
| `ImmediateCommit.CommitsExactly` | app/asr_streaming.py:206-230 | on the transcript: a commit changes nothing and says nothing if and only if there is no complete sentence or it is refused so |
| `CommitAgreement.AnnouncesExactly` | app/asr_streaming.py:206-230 | what is announced is the splitter's sentences, up to white space, if and only if each sentence but the last, read on its own behind the stop before it, first stops where the splitter stops |
| `CommitExamples.LocalCommitNeverRefuses` | app/asr_streaming.py:206-230 | that is so whenever no sentence end depends on the text around it |
| `CommitExamples.DotlessCommitNeverRefuses` | app/asr_streaming.py:206-230 | in particular for every tail without a dot |
| `CommitExamples.DottedCommitRefuses` | app/asr_streaming.py:220-221 | for the tail `!.B. C!` splitter and candidate search disagree and nothing is committed |
| `CommitExamples.DotsThatEnd` | app/asr_streaming.py:322-351 | the dots of a number, a domain, an abbreviation and an initialism end no sentence, the dot behind a word does |
| `CommitExamples.OtherTerminatorsEnd` | app/asr_streaming.py:322-325 | every other terminator does, wherever it stands |
| `Transcript.CommitSplitsTail` | app/asr_streaming.py:206-230 | an immediate commit changes nothing, or cuts the old tail into nonempty sentences and a new tail with no character lost |
| `Transcript.ConflictChangesNoText` | app/asr_streaming.py:131-145 | an update raises exactly when it does not start with the confirmed text, and then changes only the processed samples |
| `Transcript.UpdateShowsModelText` | app/asr_streaming.py:131-145 | after an accepted update confirmed text plus tail is what the model said, and no confirmed text was taken back |
| `Transcript.UpdateReports` | app/asr_streaming.py:131-145 | its events report exactly the change of confirmed text and tail, numbered without a gap |
| `Transcript.SnapshotReports` | app/asr_streaming.py:99-121 | so do those of a segment snapshot |
| `Transcript.CommitPendingReports` | app/asr_streaming.py:146-161 | so do those of a commit, after which the tail is empty |
| `Transcript.PerformReports` | app/asr_streaming.py:99-234 | so do those of every operation |
| `Transcript.RunReports` | app/asr_streaming.py:99-234 | over every run the confirmed text is the concatenation of all `sentence_final` texts, the tail is what the events leave on display, and the numbers are 1, 2, 3, ... |
| `Transcript.ConfirmedOnlyGrows` | app/asr_streaming.py:131-230 | no continuation of a run takes confirmed text back |
| `TranscriptText.UpdateMoves` | app/asr_streaming.py:131-145 | an accepted update confirms exactly the stable candidate, or what can be committed at once, and the rest of the new text is the tail; it is silent only if nothing changes |
| `TranscriptText.SnapshotMoves` | app/asr_streaming.py:99-121 | a snapshot is refused exactly while another segment is pending or segments are off, and otherwise becomes the tail |
| `TranscriptText.CloseMoves` | app/asr_streaming.py:146-161 | closing confirms exactly the tail if a character of it is visible, and nothing otherwise; the tail is empty afterwards |
| `TranscriptText.AppendMoves` | app/asr_streaming.py:163-171 | an independent segment joins the tail, of which what can be is committed |
| `TranscriptText.FinishMoves` | app/asr_streaming.py:173-179 | finishing is an update followed by one `final` with the tail |
| `TranscriptText.ResetForgets` | app/asr_streaming.py:181-183 | a reset forgets candidate and segment and leaves the text |
| `TranscriptText.PrefixMoves` | app/asr_streaming.py:195-204 | a prefix is confirmed exactly if the tail begins with it |
| `TranscriptText.SentencesMove` | app/asr_streaming.py:206-230 | an immediate commit confirms all complete sentences and keeps the splitter's rest, unless refused |
| `StableCommit.TrackerRemembersLooks` | app/asr_streaming.py:45-67 | the tracker's candidate is that of each of its last looks, since the first of them |
| `StableCommit.StableCommitIsStable` | app/asr_streaming.py:45-62 | a candidate comes out only after two or more consecutive looks, at least the minimum number, agreed on it over at least the stable time |
| `StableCommit.StableCommitExactly` | app/asr_streaming.py:45-67 | a look commits if and only if its candidate has been agreed on without a commit by enough looks and for long enough; it commits that candidate |
| `TranscriptObject.StreamingTranscriptState.ObserveStable` | app/asr_streaming.py:45-67 | one look of the tracker |
| `TranscriptObject.StreamingTranscriptState.ModelUpdate` | app/asr_streaming.py:131-145 | new fields, events and conflict are those of `ApplyModelUpdate` |
| `TranscriptObject.StreamingTranscriptState.SegmentSnapshot` | app/asr_streaming.py:99-121 | those of `ApplySegmentSnapshot` |
| `TranscriptObject.StreamingTranscriptState.ClosePending` | app/asr_streaming.py:146-161 | those of `CommitPending` |
| `TranscriptObject.StreamingTranscriptState.IndependentSegment` | app/asr_streaming.py:163-171 | those of `AppendIndependentSegment` |
| `TranscriptObject.StreamingTranscriptState.FinishTranscript` | app/asr_streaming.py:173-179 | those of `Finish` |
| `TranscriptObject.StreamingTranscriptState.ConfirmPrefix` | app/asr_streaming.py:195-204 | those of `CommitPrefix` |
| `TranscriptObject.StreamingTranscriptState.CommitAllCompleteSentences` | app/asr_streaming.py:206-230 | those of `CommitSentences` |
| `Protocol.GatewayText` | app/asr_gateway.py:908-914 | a cumulative snapshot handed on by the gateway always starts with the confirmed text |
| `Protocol.HandleTells` | app/asr_gateway_protocol.py:63-129 | every command in every mode and state: the events tell the client exactly what changed, and the numbers missing before the first of them are `Skips` |
| `Protocol.ConfirmedPlusTailTells` | app/asr_gateway_protocol.py:83-97 | in CONFIRMED_PLUS_TAIL mode one number is missing exactly when the confirmed text is nonempty and not already the tail |
| `Protocol.FinalTells` | app/asr_gateway_protocol.py:107-119 | `final` with a tail skips one number exactly when the tail differs from the current one |
| `ProtocolObject.ProtocolSession.Execute` | app/asr_gateway_protocol.py:63-133 | one command on the object is `Handle`; an ended session refuses and stays as it is |
| `ProtocolObject.ProtocolSession.ApplyGuarded` | app/asr_gateway.py:817-838 | a result applies as a whole, or the saved copy goes back and nothing is sent |
| `Client.DisplayState.Apply` | scripts/stream_asr_client.py:43-57 | the display fold and the text it returns |
| `Client.SequenceTracker.Observe` | scripts/stream_asr_client.py:60-76 | the warning for the next number |
| `Client.DisplayIsConfirmedPlusTail` | scripts/stream_asr_client.py:43-57 | folding events shows all `sentence_final` texts and the last reported tail |
| `Client.WarnsExactly` | scripts/stream_asr_client.py:60-76 | after a number only the next one is silent; a smaller or equal one and a greater one are reported differently, with the numbers concerned |
| `Client.SilentIffConsecutive` | scripts/stream_asr_client.py:60-76 | the tracker is silent over a stream exactly when its numbers are consecutive |
| `ProtocolRuns.ClientAgrees` | app/asr_gateway_protocol.py:67-129 | after every run, in all modes and through failed applications, the client's display is the server's confirmed text and current tail |
| `ProtocolMeaning.HandleMeans` | app/asr_gateway_protocol.py:63-133 | every command does to confirmed text, tail, segment and end exactly what it means, in a model without events, and raises exactly if it is refused |
| `ProtocolMeaning.HandleHears` | app/asr_gateway_protocol.py:67-99 | every result counts its samples exactly once; only a refused snapshot or one after the end does not |
| `ProtocolMeaning.MilestonesAreSent` | app/asr_gateway_protocol.py:63-133 | ready, final and error are answered with exactly that event, final with the tail |
| `ProtocolMeaning.ClientShowsMeaning` | app/asr_gateway_protocol.py:63-133 | after every run, failed applications included, the client renders exactly the text the run means |
| `ProtocolRuns.ConsecutiveExactlyWithoutSkips` | app/asr_gateway_protocol.py:67-129 | numbers always increase, and are 1, 2, 3, ... exactly when no command took a number for a dropped event |
| `ProtocolRuns.TrackerStaysSilent` | app/asr_gateway.py:817-838 | with cumulative and replaceable results the numbers are consecutive from 1 and the client never warns, failed applications included |
| `ProtocolRuns.DroppedEventShowsAsGap` | app/asr_gateway_protocol.py:86 | in the third mode, confirming any new text right after `ready` makes the client report a gap |
| `ProtocolRuns.OneClosingEvent` | app/asr_gateway_protocol.py:107-133 | every run sends at most one `final` or `error`, and nothing after it |
| `CoordinatorTheorems.NextKeeps` | app/asr_inference.py:145-711 | every step of callers and owner thread keeps places, futures, session sets and counters consistent |
| `CoordinatorTheorems.PutNeverFails` | app/asr_inference.py:101-103 | neither `queue.Full` branch is reachable: admitted jobs find a slot, the shutdown slot is free until used, waiting business jobs never exceed the counter |
| `CoordinatorTheorems.SessionsAreBounded` | app/asr_inference.py:350-368 | active sessions have stream reservations, which never exceed the limit; no two unfinished operations share a session |
| `CoordinatorTheorems.ClaimExcludesTimeout` | app/asr_inference.py:633-650 | a job reported as a queue timeout has not run and one that ran is not so reported; a finished job ran exactly if it was claimed |
| `CoordinatorTheorems.ExpiredJobNeverRuns` | app/asr_inference.py:402-412 | in every continuation, too |
| `CoordinatorTheorems.CountersAreNeverClamped` | app/asr_inference.py:691-695 | neither `max(0, ...)` ever cuts anything off |
| `CoordinatorTheorems.CountersAreExact` | app/asr_inference.py:380-400 | the counters are exactly the slots and the audio that jobs hold |
| `CoordinatorTheorems.EverythingIsGivenBack` | app/asr_inference.py:582-596 | with no job waiting or in hand, all slots, audio and busy marks are back and the only stream reservations left belong to open sessions |
| `CoordinatorAdmission.AdmittedExactly` | app/asr_inference.py:350-388 | in every reachable state a request is admitted if and only if the coordinator accepts, the session is open, in good standing and without an unfinished operation (or a stream is free and no file owns the model), and the audio and slots jobs hold leave room |
| `CoordinatorAdmission.AdmissionQueues` | app/asr_inference.py:350-400 | an admitted request is one new waiting job, any other leaves no trace |
| `CoordinatorAdmission.NothingAfterStop` | app/asr_inference.py:145-149 | after a stop nothing is admitted until the next start |
| `CoordinatorAdmission.AcceptingExactly` | app/asr_inference.py:130-654 | a start opens the coordinator; a stop, a failed load or warm-up, and the end of the thread close it, and no other step does either |
| `CoordinatorAdmission.PoisonedIsRefused` | app/asr_inference.py:800-810 | an operation on a poisoned session is refused as such and changes nothing |
| `CoordinatorAdmission.GivingUpPoisons` | app/asr_inference.py:418-446 | timing out on a running job or walking away from a claimed one poisons the session, leaving an unclaimed job does not |
| `CoordinatorAdmission.PoisonedExactly` | app/asr_inference.py:418-462 | a session is poisoned after a step if and only if the step poisons it, or it was and the step neither forgives it nor cleans it up nor ends the thread |
| `CoordinatorAdmission.PoisonedUntilPardoned` | app/asr_inference.py:800-810 | in every continuation, until it is forgiven, cleaned up or the thread ends, a poisoned session stays so and no operation on it is admitted |
| `CoordinatorAdmission.PoisonIsCleanedUp` | app/asr_inference.py:775-798 | a poisoned session is found out when its next job is over, and forgotten in all sets |
| `CoordinatorAdmission.OpenedIsServed` | app/asr_inference.py:713-727 | a stream that was opened is served, one that failed to open is not |
| `CoordinatorAdmission.ClosedIsPast` | app/asr_inference.py:745-760 | a session whose closing operation ran can never be opened again |
| `CoordinatorAdmission.LeavingIsPast` | app/asr_inference.py:745-798 | so can no session that left the active set in any way |
| `CoordinatorAdmission.PastForEver` | app/asr_inference.py:350-388 | in every continuation operations on it are refused |
| `CoordinatorAdmission.TakesInOrder` | app/asr_inference.py:75-78 | shutdown first, files last, and otherwise in the order of submission |
| `CoordinatorAdmission.CallersHear` | app/asr_inference.py:402-446 | what a caller is told in each way of waiting, and when giving up cancels the job |
| `CoordinatorAdmission.ClaimsExactly` | app/asr_inference.py:633-642 | exactly the jobs nobody has cancelled are claimed |
| `CoordinatorProgress.OwnerStepNearer` | app/asr_inference.py:691-711 | every step of the owner thread brings it nearer to the end of its work |
| `CoordinatorProgress.OwnerRunsEnd` | app/asr_inference.py:691-711 | so it takes a bounded number of steps by itself from any state of the invariant |
| `CoordinatorProgress.OwnerGivesEverythingBack` | app/asr_inference.py:582-596 | from every reachable state a bounded number of steps of the owner thread alone empties the queue; then every job is decided and all slots, audio and busy marks are back |
| `CoordinatorProgress.StuckMeansFinished` | app/asr_inference.py:582-596 | and wherever the owner thread by itself can go no further, no job is left |
| `CoordinatorProgress.StopIsHeard` | app/asr_inference.py:145-169 | a stop of a running thread puts the shutdown job into the queue |
| `CoordinatorProgress.StopEndsThread` | app/asr_inference.py:652-672 | and then the owner thread by itself comes to its end, everything cleared, in a bounded number of steps |
| `CoordinatorFiles.FilesKept` | app/asr_inference.py:274-293 | every step keeps the two file flags, their callers and the stream reservations consistent |
| `CoordinatorFiles.FileExcludesStreams` | app/asr_inference.py:274-293 | while a file's caller waits there is no stream reservation, and the owner thread's flag is set only while it transcribes a file |
| `CoordinatorFiles.StreamPassesClaimedFile` | app/asr_inference.py:352-354 | beside a claimed file a stream is not refused for it if and only if the owner thread has not set its flag and no file's caller waits; callers left over from before a shutdown are the only other way |
| `CoordinatorFiles.TogetherMeansDeserted` | app/asr_inference.py:761-769 | a file and streams own the model together only if the running file's caller is gone, or after a shutdown |
| `CoordinatorFiles.FileAndStreamTogether` | app/asr_inference.py:274-293 | a reachable state in which a stream is admitted beside a claimed file, and one in which both own the model |
| `CoordinatorRuns.RefusedSubmitChangesNothing` | app/asr_inference.py:350-388 | a submission turned away by any check leaves no trace |
| `CoordinatorCounts.QueueHasRoom` | app/asr_inference.py:101-103 | the queue holds at most the business jobs and one shutdown job |
| `CoordinatorCounts.GiveSlotKeepsCounts` | app/asr_inference.py:691-695 | giving a slot back decrements a positive counter |
| `CoordinatorCounts.GiveAudioKeepsCounts` | app/asr_inference.py:817-821 | giving audio back subtracts no more than is counted |
| `CoordinatorObject.InferenceCoordinator.Admit` | app/asr_inference.py:350-400 | the locked part of a submission is the step `Submit`, with the refusal of the first failing check: not accepting, a file that has the model, stream limit, session checks, audio limit, full queue |
| `CoordinatorObject.InferenceCoordinator.Announce` | app/asr_inference.py:274-281 | a file is announced unless not accepting, or streams or another file own the model |
| `CoordinatorObject.InferenceCoordinator.RequestShutdown` | app/asr_inference.py:145-169 | the locked part of `stop` |
| `CoordinatorObject.InferenceCoordinator.ReleaseReservations` | app/asr_inference.py:691-711 | audio, busy mark and stream reservation of the job in hand |
| `CoordinatorObject.InferenceCoordinator.CleanupPoisonedSession` | app/asr_inference.py:775-798 | a poisoned session leaves all four sets together |
| `Adapter.AppendTranscript` | app/asr_faster_whisper.py:509-515 | joins two pieces, losing neither, with at most one space between them |
| `Adapter.OneJob` | app/asr_faster_whisper.py:308-425 | what the engine is asked for one job, what becomes of the session's audio, texts and language, and what the caller is told, for both adapters |
| `Adapter.AcceptedExactly` | app/asr_faster_whisper.py:262-297 | a batch is acceptable if and only if every job is for an open session under its backend's name, no two are for one session, and no segment outgrows its limit |
| `Adapter.BatchAdapter.Validate` | app/asr_faster_whisper.py:262-297 | the first problem of the jobs in order, if any |
| `Adapter.BatchAdapter.Extend` | app/asr_faster_whisper.py:298-299 | every job's audio joins its session and nothing else changes |
| `Adapter.BatchAdapter.GroupByKey` | app/asr_faster_whisper.py:301-306 | every job is in a group and the members of a group share language and beam size |
| `Adapter.BatchAdapter.DecodeGroups` | app/asr_faster_whisper.py:308-388 | with a pointwise engine every job gets the item it would get alone |
| `Adapter.GroupDecodesAlone` | app/asr_faster_whisper.py:316-345 | one engine call for a group gives each member its own decode |
| `Adapter.CommitAll` | app/asr_faster_whisper.py:390-415 | items are put into sessions and replies in job order; audio is not touched |
| `Adapter.SerialIsPointwise` | app/asr_faster_whisper.py:256-415 | one at a time, every job finds its session untouched by the jobs before it |
| `Adapter.BatchAdapter.Process` | app/asr_sensevoice.py:317-429 | an accepted batch, for either adapter, leaves the sessions and replies of its jobs submitted one after the other |
| `Adapter.BatchAdapter.Submit` | app/asr_faster_whisper.py:256-415 | a batch turned away changes nothing; an accepted one equals serial decoding; no segment exceeds its limit |
| `Adapter.BatchAdapter.ConsumeFinal` | app/asr_faster_whisper.py:469-491 | the cached final, or a decode of everything heard, from which the session may learn its language; the segment is empty afterwards |
| `Adapter.BatchAdapter.OpenSession` | app/asr_faster_whisper.py:232-254 | a new empty session under its backend identifier and requested language; not ready, another task, timestamps, an unsupported language or an open session are refused in that order without effect |
| `Adapter.FinalDecodesWholeSegment` | app/asr_faster_whisper.py:390-425 | what a final job caches for the finish is the decode of the whole segment |
| `Rollover.WatchdogLeavesRoom` | app/config.py:242-263 | under validated settings, after rounding, a full segment and the longest frame stay within the watchdog limit |
| `Rollover.StreamingSession.AddStream` | app/asr.py:354-424 | a stream of frames from a fresh session is `StreamAll` |
| `RolloverStream.StreamSegments` | app/asr.py:354-424 | however it is framed, a stream is full segments of exactly the maximum and the open one; what is said of the finished ones is, in order, what the model says of their pieces after finishing, and the last update says what the model says now; no more is reported decoded than was sent |
| `RolloverStream.PositionIsLength` | app/asr.py:382-419 | segment number and fill are the quotient and remainder of the stream's length by the maximum |
| `RolloverStream.CutSegments` | app/asr.py:382-419 | the same for one frame, from any point of a segment |
| `RolloverStream.CutNumbers` | app/asr.py:382-419 | a frame's updates are of consecutive segments, all but the last finished; decoded plus undecoded never exceeds what was submitted |
| `RolloverStream.TurnAnswers` | app/asr.py:384-419 | exact text, `updated` and `decoded` of the update for one piece, from the model's states before and after |
| `RolloverStream.FinishAnswers` | app/asr.py:494-504 | the same for finishing early |
| `Rollover.StreamingSession.AddPcm` | app/asr.py:354-424 | refusals in order and without effect, never the watchdog's; otherwise the frame is `FrameAll` |
| `Rollover.StreamingSession.Cut` | app/asr.py:382-419 | the loop terminates and computes `CutAll` |
| `Rollover.StreamingSession.Step` | app/asr.py:384-419 | one piece is `Turn`: it fills its segment, which is then finished, or ends the frame |
| `Rollover.StreamingSession.StreamPiece` | app/asr.py:426-436 | progress is the decoded chunks, capped by what is pending |
| `Rollover.StreamingSession.FinishActive` | app/asr.py:494-504 | everything pending counts as decoded exactly if finishing changed the model's state |
| `Rollover.StreamingSession.FinishSegment` | app/asr.py:450-464 | ends the segment early with what the model says then, and starts the next |
| `Rollover.StreamingSession.FinishStream` | app/asr.py:438-448 | the same, and the session is closed |
| `Playback.UnderrunSeconds` | scripts/benchmark_tts_stream.py:178-195 | the loop's total is the maximum of zero and every chunk's lateness against the audio before it; errors are those of the first bad chunk |
| `Playback.WorstIsLeastDelay` | scripts/benchmark_tts_stream.py:178-195 | a start delay gives stall-free playback exactly if it is at least that total |

## Left out

- WebSocket and HTTP routes, authentication, JSON, settings loading: input and output only. The relations between settings that matter are preconditions.
- Neural and vendor calls: the VAD backend is a function of the frames since its last reset, the adapters' engine and the streaming model are arbitrary functions, and an adapter's submission may return or fail in any way.
- Metrics, event logs, job timelines, result metadata and detected-language metadata: they do not influence the modelled state.
- `BackendRegistry` leases, `ChunkPolicy`, TTS synthesis, translation, model manifests and the rest of the benchmarks: counters and thin wrappers that would add only easy members.
- Liveness of `segment()`'s wait for idleness and of `drain_worker`: they depend on later audio and on a flag the program does not keep exact.
- Floating-point rounding, wall-clock accuracy and RMS energy: time and durations are exact reals.
- The scheduler model has one run of `run_once` in progress at a time, as its own loop has, and reads the clock once per queue scan; hooks do not raise, except `cleanup` and the `reject` inside `_drain_failed_queue`, whose outcomes are arbitrary.
- In `VadSession` and `Pipeline` no audio is taken in once a finish was requested: the websocket loop sends none, and `ingest` does not check.
- `Pipeline` has a detector for every session and drives it only while the session is live; a session without one appends client audio directly, which `Linkage` covers.
- `request_finish` is called on open sessions only: the program does not guard it against ended ones.
- The settings switch that turns file transcription off, and file callers that give up between announcing and submitting for other reasons than a refusal, which the model allows.
- A session poisoned after its last job was cleaned up stays poisoned; that it is closed eventually is not claimed.
- The character tables of the platform are parameters; the example that needs particular characters lists what it needs of them. `str.lower` is a parameter, too.
- In the adapters a session's state is a value in a map and not a shared mutable object; a batch never holds two jobs of one session, so there is nothing to alias. The engine lock is not modelled.
- `QwenVLLMStreamingSession.abort` only ends a session; errors raised by the model itself are not modelled there.
