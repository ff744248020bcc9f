# Verified model of the addon's portable core

This project models the owned state machines and step protocols at the core of the addon's Rust
crate and proves what they keep over every run. The parts follow the source's modules.

**Worker pool.** `WorkerPool.dfy` treats every critical section of the pool's mutex as one step of
an interleaved system: threads are idle, processing, holding a completion ticket, or gone; the
owner enqueues, takes, resizes, changes the capacity and cancels. A condition-variable wait is the
guard of the step behind it. Both ticket counters wrap at the machine word. Class `Workers` has
the pool's fields and performs each step in place. `PoolLaws` adds its limits over whole runs.

**Uploads.** `UploadJobs` holds one job's four destinations, `UploadEntries` what one coordinator
call does to one job, `UploadLedger` the log of requests and answers per destination,
`CoordinatorSpec` the whole coordinator as a state and `UploadCoordinator` the class that updates
it. `ResultDraining` is its round-robin result loop, `UploadProgress` what single calls get done,
`UploadEffects` what each call makes of a job, told by its outcome, and `UploadSettling` that
answered work comes to rest with every job idle. `LogIngestion` adds the parser side,
`ReplaySafety` what follows for chat and Discord. Provider ports are adversarial: results may be
lost, late, duplicated, reordered or invented.

**Twitch session.** `TwitchSession` is the binary record. `SessionOwnerSpec` gives every lock
section of the shared owner as a function, with the ownership invariant, and `SessionRecovery` the
chat recovery that is built from them. `SessionParties` is the system of all parties: any number
of recoveries, each at its own place between two lock sections or inside an HTTP call, clients
that take any steps with the transaction ids they were given, and shutdown. Its runs are not
filtered, and every restore in them is proved safe. `RecoveredSessions` follows the tokens through
such runs, and `SessionLaws` says what the owner's calls mean to one another and which way a
recovery takes. `TwitchSessionOwner` is the owner class with the recovery in place, `ChatDelivery`
the message sender, `AuthenticationWorkflow` and `TwitchAuthenticationController` the
authentication controller, `AuthenticationRuns` what all its runs keep, `AuthenticationPromises`
what single calls and whole flows promise, `AuthenticationAnswers` what is made of each answer,
`AuthenticationFaults` what is made of failing ports, and `ConnectionFlows` how a saved connection
is taken up, followed and given up. HTTP, store, clock and worker are answers passed in, and a
panicking port is one more answer. Locks are dropped across calls: before each lock section of one
party, `others(turn)` is an arbitrary sequence of steps that the other parties may take. It leaves
out steps in the name of the party's own transaction and unsafe restores;
`SessionParties.OthersDropNothing` proves that there are none of these to leave out, and
`SessionParties.MovesAreTheCall` that the moves of a recovery in the system are its call.
`ControllerParty` makes the controller one of these parties: its calls are moves of a client, so
what is proved of the parties and of the controller holds of one and the same run.

**Loops with an exact specification.** `LogDiscovery` with `DiscoveredFiles`, `GregorianTime`,
`Multipart` with `FormLaws`, `HistoryStore`, and `ZevtcArchive` with `ZevtcSoundness`, `ZevtcAcceptance` and
`ZevtcRoundTrip`.

The style is the same throughout: a call is a method that updates a class in place and is proved
equal to a function of the old state and of the answers of its ports; what the source promises is
then proved about those functions and over whole runs.

Conventions. Times and durations count nanoseconds. Texts of the Twitch session are their UTF-8
bytes. Upload jobs and body sources are values, because the source clones or moves them; entries
of the coordinator are replaced as a whole. DEFLATE and CRC-32 are function parameters.

Three results are conditions rather than plain guarantees:

- A single stored archive reads back if and only if its directory record does not end like a
  ZIP64 locator, which is so when the last 20 bytes of name, extra fields and entry comment begin
  with the locator signature, or, with fewer bytes than that, when the attributes happen to
  contain it. The reader then takes the record's end for a locator and refuses the archive
  (`ZevtcRoundTrip.StoredArchiveReadsBack`, `VariablePartForges`, witnesses `ForgedNameIsRefused`
  and `ForgedAttributesAreRefused`).
- A well-formed success is accepted if and only if the receipt slot it fills is empty. Jobs created
  in this lifetime always meet that. A job restored from history with a filled slot and a failed
  state does not: its retry stays active after a success
  (`CoordinatorSpec.SuccessIsAccepted`, witness `ReplaySafety.RestoredReceiptRefusesSuccess`).
- Replay safety is about one coordinator lifetime, because restoring history resets every intent to
  automatic.

## Model

| member | source | states |
|---|---|---|
| WorkerPool.StepKeepsInv | rust/src/workers.rs:93-140 | every critical section keeps: active counts the busy threads, unpublished tickets are the wrapped interval between the two counters with one distinct thread behind each, and every admitted request is in exactly one place |
| WorkerPool.RunKeepsInv | rust/src/workers.rs:93-140 | the same over every run of thread, consumer and owner steps |
| WorkerPool.TicketNamesOldest | rust/src/workers.rs:117-138 | a thread whose ticket equals the publication counter holds the oldest unpublished completion, also after the counters wrapped |
| WorkerPool.CompletionOrderIsKept | rust/src/workers.rs:117-138 | in every reachable running state taken plus queued results are a prefix of the completion order, at most 32 completions are unpublished, requests start in admission order, and nothing admitted is lost or duplicated |
| WorkerPool.DispatchIsWorkConserving | rust/src/workers.rs:93-116 | with a request queued and fewer active attempts than the limit, some thread below the limit can dequeue, even right after parallelism was lowered (pigeonhole) |
| WorkerPool.SomeProgressStepIsEnabled | rust/src/workers.rs:93-140 | no deadlock: while a request, result or attempt is left in a running pool, a thread or the consumer can move |
| WorkerPool.ProgressLowersMeasure | rust/src/workers.rs:93-140 | every thread or consumer step takes one off the remaining lock sections, and resizing adds none |
| WorkerPool.DrainingDeliversEverythingOnce | rust/src/workers.rs:93-140 | under any resizing only finitely many progress steps are possible, and when none is left each admitted request has completed exactly once and all results were taken in completion order |
| WorkerPool.EveryThreadCanLeave | rust/src/workers.rs:317-336 | after cancellation every thread that has not returned has its next step enabled |
| WorkerPool.JoinEnds | rust/src/workers.rs:317-336 | after cancellation the threads take a bounded number of steps, publish nothing more, and end with every thread gone and every admission slot given back |
| PoolLaws.QueuesAreBounded | rust/src/workers.rs:93-140 | backpressure over any run: requests and results never outnumber the largest capacity in force so far, nor the attempts under way the largest parallelism |
| PoolLaws.RequestsAreAdmittedIff | rust/src/workers.rs:289-301 | a request is admitted if and only if the pool runs and has room, and goes to the end of the queue |
| PoolLaws.NewPoolServes | rust/src/workers.rs:93-199 | a new pool works: a request goes through its first thread and comes out as the result |
| PoolLaws.CancellingStops | rust/src/workers.rs:317-329 | cancelling drops what waits, leaves the threads as they are, and does nothing a second time |
| PoolLaws.CancelledPoolOnlyFinishes | rust/src/workers.rs:317-336 | after it nothing is admitted, started, published, taken or resized in any run; threads only finish and leave |
| WorkerPool.Workers.Open | rust/src/workers.rs:155-199 | construction succeeds exactly for a positive capacity, 1 to 32 threads and enough startable ones, and establishes the invariant |
| WorkerPool.Workers.Enqueue | rust/src/workers.rs:289-301 | admits exactly when running and below capacity, and otherwise changes nothing and says which |
| WorkerPool.Workers.TryTakeResult | rust/src/workers.rs:302-307 | takes the oldest queued result, or changes nothing |
| WorkerPool.Workers.UpdateQueueCapacity | rust/src/workers.rs:204-227 | sets the capacity, or refuses zero and a stopping pool without a change |
| WorkerPool.Workers.UpdateParallelism | rust/src/workers.rs:228-247 | starts missing threads one by one; a refused start keeps the old limit but owns the threads already started |
| WorkerPool.Workers.CancelPending | rust/src/workers.rs:317-329 | the first cancellation empties both queues and stops the pool, later ones change nothing |
| WorkerPool.Workers.TakeRequestOrLeave | rust/src/workers.rs:94-116 | the wait for work: dequeues the oldest request, or leaves a stopping pool |
| WorkerPool.Workers.TakeTicket | rust/src/workers.rs:117-122 | hands out the completion ticket and advances the counter with wrap-around |
| WorkerPool.Workers.PublishOrLeave | rust/src/workers.rs:123-140 | the wait for publication: publishes and gives the slot back, or leaves a stopping pool |
| UploadJobs.TransitionCountsAttempts | rust/src/domain/upload_job.rs:320-366 | a permitted transition changes only its destination, counts an attempt exactly on activation, and never past the counter's width |
| UploadJobs.RestoreKeepsClean | rust/src/domain/upload_job.rs:258-297 | restoring a record whose receipt slots match its states keeps that property |
| UploadLedger.SettledWorkIsNeverRepeatedAutomatically | rust/src/application/upload_coordinator.rs:507-553 | in a legal log no automatic request follows a settled answer of the same job and destination |
| UploadLedger.AnswersAreDistinct | rust/src/application/upload_coordinator.rs:215-240 | attempt numbers of accepted answers strictly grow |
| UploadLedger.RequestsAreSeparated | rust/src/application/upload_coordinator.rs:507-553 | between two requests of a destination lies the answer to the first, and attempts strictly grow |
| UploadLedger.AutomaticRepeatsFollowDeferrals | rust/src/application/upload_coordinator.rs:338-358 | an automatic request that is not the first follows a deferral of the earlier attempt |
| UploadEntries.SetMetadataKeeps | rust/src/application/upload_coordinator.rs:167-188 | routing a parsed log keeps the job's invariant, its legal log and its empty receipt slots |
| UploadEntries.FailMetadataKeeps | rust/src/application/upload_coordinator.rs:190-213 | a failed or cancelled parse keeps them and leaves the job idle |
| UploadEntries.ApplyResultKeeps | rust/src/application/upload_coordinator.rs:215-303 | any result keeps them, and a refused one changes nothing and logs nothing |
| UploadEntries.AcceptedResultAnswers | rust/src/application/upload_coordinator.rs:215-240 | an accepted result was for the active attempt, and the log records its answer first |
| UploadEntries.DispatchKeeps | rust/src/application/upload_coordinator.rs:507-553 | dispatching keeps them whether the adapter accepts, refuses or is missing, and never leaves the destination waiting |
| UploadEntries.RetryFailedKeeps | rust/src/application/upload_coordinator.rs:360-389 | a manual retry keeps them |
| UploadEntries.ReuploadKeeps | rust/src/application/upload_coordinator.rs:391-408 | a reupload of the three upload destinations keeps them |
| UploadEntries.RechatKeeps | rust/src/application/upload_coordinator.rs:410-421 | a repeated chat delivery keeps them |
| UploadEntries.RetryFailedStaysBusy | rust/src/application/upload_coordinator.rs:360-389 | a busy job is still busy after a manual retry, so no trimming is due |
| UploadEntries.ReuploadStaysBusy | rust/src/application/upload_coordinator.rs:391-408 | the same for a reupload |
| UploadEntries.RechatStaysBusy | rust/src/application/upload_coordinator.rs:410-421 | the same for a repeated chat delivery |
| UploadEntries.CancelEffect | rust/src/application/upload_coordinator.rs:472-493 | cancellation turns exactly the busy destinations of a job into cancelled ones |
| UploadEntries.CancelKeeps | rust/src/application/upload_coordinator.rs:472-493 | a cancelled job is idle and keeps its id and its empty receipt slots |
| UploadEntries.SuccessRefusedIffSlotTaken | rust/src/domain/upload_job.rs:368-420 | a well-formed success for the active attempt is refused if and only if its receipt slot is taken |
| CoordinatorSpec.TrimmingDropsOldestIdle | rust/src/application/upload_coordinator.rs:686-693 | trimming keeps the busy jobs of a prefix and all jobs behind it, and stops when it fits or only busy jobs are left |
| CoordinatorSpec.AddPendingKeepsInv | rust/src/application/upload_coordinator.rs:144-165 | adding keeps the invariant, hands out the next id, makes room within the limit, and changes nothing when refused; UploadEffects.NewJobIsAsSelected says what the new job is |
| CoordinatorSpec.CancelAllKeepsInv | rust/src/application/upload_coordinator.rs:472-493 | stopping keeps the invariant and leaves at most the limit of jobs |
| CoordinatorSpec.StepKeepsInv | rust/src/application/upload_coordinator.rs:144-493 | every call of the coordinator keeps the invariant |
| CoordinatorSpec.RunKeepsInv | rust/src/application/upload_coordinator.rs:144-493 | so does every sequence of calls, whatever ports and clock answer |
| CoordinatorSpec.NothingIsStranded | rust/src/application/upload_coordinator.rs:566-600 | in every reachable running state a waiting destination has the parser or a live dps.report attempt in front of it, and Wingman and DonBot run only with dps.report disabled or delivered |
| CoordinatorSpec.HistoryIsBounded | rust/src/application/upload_coordinator.rs:686-693 | in every reachable state the jobs are within the limit or all busy, in strictly increasing id order |
| CoordinatorSpec.IdsAreNeverReused | rust/src/application/upload_coordinator.rs:144-165 | an id handed out after any further calls is above every earlier id, retained job and logged request |
| CoordinatorSpec.RunsAreReplaySafe | rust/src/application/upload_coordinator.rs:360-421 | over every run, a request after a settled answer carries an explicit intent, and both answers and requests of a destination have strictly growing attempts |
| CoordinatorSpec.AcceptedResultsAreLogged | rust/src/application/upload_coordinator.rs:215-303 | a refused result changes nothing; an accepted one appends its answer |
| CoordinatorSpec.SuccessIsAccepted | rust/src/domain/upload_job.rs:368-420 | a well-formed success for the active attempt is accepted if and only if its receipt slot is empty, which always holds for jobs created in this lifetime |
| UploadProgress.RetrySends | rust/src/application/upload_coordinator.rs:360-389 | a manual retry of a failed destination with nothing in its way sends exactly its next attempt, marked as explicit |
| UploadProgress.ReuploadSends | rust/src/application/upload_coordinator.rs:391-408 | a reupload sends dps.report again with the old report and receipts gone, leaves Wingman and DonBot waiting for the new one and the chat delivery alone |
| UploadProgress.RechatSends | rust/src/application/upload_coordinator.rs:410-421 | a repeated chat delivery sends the next attempt with the report and touches no upload destination |
| UploadProgress.MetadataSendsReport | rust/src/application/upload_coordinator.rs:167-188 | metadata sends dps.report first if it is selected |
| UploadProgress.MetadataSendsDirectly | rust/src/application/upload_coordinator.rs:167-188 | without dps.report the direct destinations are sent at once, except Wingman for a WvW log |
| UploadProgress.ReportReachesDependents | rust/src/application/upload_coordinator.rs:283-300 | a finished dps.report upload sends each waiting, ready dependent its request with the new report, whatever becomes of the others; chat is left out of a reupload |
| UploadProgress.NoRetryIsLeftBehind | rust/src/application/upload_coordinator.rs:338-358 | unless the budget ran out, no destination of any retained job is due when the call returns |
| UploadProgress.NewestRowsAreRestored | rust/src/application/upload_coordinator.rs:423-438 | the restored history is the newest rows that fit, in order, under fresh ids, with interrupted work failed |
| UploadEffects.TransitionIsTakenIff | rust/src/domain/upload_job.rs:66-101 | the exact transitions of a destination, told state by state, with the conditions for dps.report, chat and the last attempt |
| UploadEffects.NewEntryIsAsSelected | rust/src/domain/upload_job.rs:224-256 | a new job has exactly the selected destinations waiting and the others disabled, no attempts, the given file and time, nothing in any slot and automatic intents |
| UploadEffects.NewJobIsAsSelected | rust/src/application/upload_coordinator.rs:144-165 | on success the last job is that new one under the next id; before it are the old jobs in order, less the oldest idle one if the history was full |
| UploadEffects.AdmissionIsRefusedIff | rust/src/application/upload_coordinator.rs:144-165 | a job is taken if and only if the coordinator runs, every selected adapter is there, an id is left, the file has a path, chat comes with dps.report and not every place is busy; each refusal has its cause |
| UploadEffects.AnswerIsAcceptedIff | rust/src/application/upload_coordinator.rs:215-263 | an answer is accepted if and only if it is of the active attempt and in order: a success of that destination for an empty slot, a delay within a day, a drop without a message id |
| UploadEffects.AnswerLeads | rust/src/application/upload_coordinator.rs:215-303 | where an accepted answer leads: each outcome to its state; a deferral due exactly from now plus its delay on; the very report or receipt in its slot and nothing else in any; no attempt counted; dependents started with the report, or skipped or cancelled without it, and nothing else touched |
| UploadEffects.AppliedResultLeads | rust/src/application/upload_coordinator.rs:215-303 | the same of the whole coordinator: the job named is as that says if it is retained, and it is while busy; the others are untouched, and only idle ones can have gone |
| UploadEffects.MetadataIsKept | rust/src/application/upload_coordinator.rs:167-188 | the metadata is kept as it came; with dps.report sent ahead the others go on waiting, except Wingman for a WvW log |
| UploadEffects.UnreadyDispatchFails | rust/src/application/upload_coordinator.rs:507-553 | a destination with something in its way fails without a request or an attempt |
| UploadEffects.ReportRetryRearms | rust/src/domain/upload_job.rs:423-440 | a manual retry of dps.report makes exactly the skipped dependents wait again: all without a report, the two uploads, emptied, in a reupload |
| UploadEffects.RetryTouchesOne | rust/src/application/upload_coordinator.rs:360-389 | a manual retry of another destination changes that one only, and empties no slot but its chat receipt |
| UploadEffects.RetryIsRefusedIff | rust/src/application/upload_coordinator.rs:360-389 | exactly when a retry is refused, with which cause, and without a trace |
| UploadEffects.ReuploadIsRefusedIff | rust/src/application/upload_coordinator.rs:391-408 | a reupload is refused without metadata or while an upload is under way, without a trace, and otherwise begins |
| UploadEffects.RechatIsRefusedIff | rust/src/application/upload_coordinator.rs:410-421 | a repeated chat delivery is refused without a report or metadata or while chat is under way, without a trace |
| UploadEffects.StoppedOrUnknown | rust/src/application/upload_coordinator.rs:167-421 | no call about a job changes anything once the coordinator stops or if it retains no such job |
| UploadEffects.CallsReachTheirJob | rust/src/application/upload_coordinator.rs:167-421 | every call about a retained job changes that job as the job-level theorems say, no other, and only if the adapters it needs are there |
| UploadEffects.DueRetriesGoInOrder | rust/src/application/upload_coordinator.rs:338-358 | due retries go out job by job and dps.report first: as many as are due or the budget allows, those first in line and no others |
| UploadEffects.LimitIsAdopted | rust/src/application/upload_coordinator.rs:465-470 | a limit from one to ten thousand is adopted at once, the oldest idle jobs making room; any other is refused |
| UploadEffects.RowsAreRestored | rust/src/domain/upload_job.rs:258-297 | rows are restored if and only if each names a file and holds valid slots; interrupted work has failed, everything else is as saved |
| UploadEffects.HistoryIsRestored | rust/src/application/upload_coordinator.rs:423-438 | restoring succeeds exactly for an untouched running coordinator and restorable newest rows, and then holds just these, in order, from id 1 on |
| UploadEffects.EverythingIsCancelled | rust/src/application/upload_coordinator.rs:472-493 | stopping cancels exactly what is under way in every job, leaves the rest as it is, and keeps as many of the newest jobs as fit |
| UploadSettling.StepLowersLoad | rust/src/application/upload_coordinator.rs:167-358 | every accepted parser report, every accepted answer and every due retry sent lowers the work left in the history, except that a deferral puts an answer and a request back |
| UploadSettling.SettlingIsBounded | rust/src/application/upload_coordinator.rs:167-358 | over any run of answers, whatever they say and in whatever order, the answers taken in are at most the work there was and two for each deferral |
| UploadSettling.BusyIffOwed | rust/src/application/upload_coordinator.rs:167-358 | in a running coordinator a job is busy if and only if its parser has not reported, a logged request of it is unanswered, or a retry of it is scheduled |
| UploadSettling.ParserIsHeard | rust/src/application/upload_coordinator.rs:167-213 | a parser report for a job that waits for it is taken in, good or bad |
| UploadSettling.DestinationIsHeard | rust/src/application/upload_coordinator.rs:215-303 | for an unanswered logged request every failure, skip, cancellation and ambiguous answer is taken in |
| UploadSettling.ClockIsHeard | rust/src/application/upload_coordinator.rs:338-358 | once a retry is due and there is budget, a request is sent |
| UploadSettling.RestIsIdle | rust/src/application/upload_coordinator.rs:167-358 | no answer that does not defer would be taken in if and only if every job is idle |
| UploadSettling.UploadsComeToRest | rust/src/application/upload_coordinator.rs:167-358 | from every reachable running state, a run in which each call takes an answer in has at most nine calls for each job and two for each deferral, and where no such call is left every job is idle |
| ResultDraining.DrainIsARun | rust/src/application/upload_coordinator.rs:304-336 | whatever the ports say, draining is a run of accepted result applications and keeps the invariant; everything else taken is counted as rejected and changes nothing |
| ResultDraining.DrainIsBounded | rust/src/application/upload_coordinator.rs:304-336 | the loop consumes at most its budget and makes at most four turns per result plus four |
| ResultDraining.UnspentBudgetMeansNothingReady | rust/src/application/upload_coordinator.rs:304-336 | a drain that stops before its budget has just asked every destination and none had a result |
| ResultDraining.TurnsAreShared | rust/src/application/upload_coordinator.rs:304-336 | of n turns each destination gets n/4, rounded down or up |
| ResultDraining.ReadyDestinationGetsItsShare | rust/src/application/upload_coordinator.rs:304-336 | no starvation: a destination that always has a result ready gets at least a quarter of all consumed results, and no other gets more than one above it |
| UploadCoordinator.Coordinator.Create | rust/src/application/upload_coordinator.rs:118-142 | construction succeeds exactly for a limit in range and distinct adapters, with the invariant established |
| UploadCoordinator.Coordinator.AddPending | rust/src/application/upload_coordinator.rs:144-165 | the in-place call equals the state function of UploadEffects.NewJobIsAsSelected and AdmissionIsRefusedIff |
| UploadCoordinator.Coordinator.SetMetadata | rust/src/application/upload_coordinator.rs:167-188 | the in-place call equals its state function |
| UploadCoordinator.Coordinator.FailMetadata | rust/src/application/upload_coordinator.rs:190-213 | the in-place call equals its state function |
| UploadCoordinator.Coordinator.ApplyResult | rust/src/application/upload_coordinator.rs:215-303 | the in-place call, working on a copy until both validation and transition succeeded, equals the state function of UploadEffects.AppliedResultLeads and AnswerIsAcceptedIff |
| UploadCoordinator.Coordinator.DrainResults | rust/src/application/upload_coordinator.rs:304-336 | the loop ends at the first turn where its guard fails, with state, counters and cursor those of the turn-by-turn function |
| UploadCoordinator.Coordinator.DispatchDueRetries | rust/src/application/upload_coordinator.rs:338-358 | the nested loops with their early exit equal the visits in job and destination order up to the budget, then trimming |
| UploadCoordinator.Coordinator.RetryFailed | rust/src/application/upload_coordinator.rs:360-389 | the in-place call equals its state function |
| UploadCoordinator.Coordinator.Reupload | rust/src/application/upload_coordinator.rs:391-408 | the in-place call equals its state function |
| UploadCoordinator.Coordinator.Rechat | rust/src/application/upload_coordinator.rs:410-421 | the in-place call equals its state function |
| UploadCoordinator.Coordinator.Restore | rust/src/application/upload_coordinator.rs:423-438 | restores the newest rows within the limit under fresh ids, or changes nothing at the first bad row |
| UploadCoordinator.Coordinator.SetHistoryLimit | rust/src/application/upload_coordinator.rs:465-470 | the in-place call equals its state function |
| UploadCoordinator.Coordinator.CancelAll | rust/src/application/upload_coordinator.rs:472-493 | the in-place call equals its state function |
| UploadCoordinator.Coordinator.Dispatch | rust/src/application/upload_coordinator.rs:507-553 | one dispatch: checks, activation, hand-over and failure of a refused hand-over equal their function |
| UploadCoordinator.Coordinator.SettleWaitingDependents | rust/src/application/upload_coordinator.rs:566-583 | the loop over the dependents equals its function |
| UploadCoordinator.Coordinator.TrimTo | rust/src/application/upload_coordinator.rs:686-693 | repeated removal of the first idle job equals trimming |
| LogIngestion.IngestionAgrees | rust/src/application/log_ingestion.rs:77-119 | over every run, pending is exactly the retained jobs awaiting metadata, those have none and only waiting or disabled destinations, and no id's parser result is applied twice |
| LogIngestion.ResultIsAppliedIffAwaited | rust/src/application/log_ingestion.rs:105-119 | a parser result is applied if and only if its job is awaited, ends that wait, and is refused when it comes again |
| LogIngestion.DeliveryEndsTheWait | rust/src/application/upload_coordinator.rs:167-213 | delivering metadata or its failure ends exactly that job's wait and cannot meet an unknown or settled job |
| LogIngestion.SubmitKeepsInv | rust/src/application/log_ingestion.rs:77-103 | submitting awaits the new job if the parser admitted it, and a refusal changes nothing |
| LogIngestion.OtherCallsKeepAwaiting | rust/src/application/log_ingestion.rs:146-154 | every other coordinator call short of stopping leaves the awaited jobs as they are |
| LogIngestion.TrimKeepsAwaiting | rust/src/application/upload_coordinator.rs:686-693 | no awaited job is evicted |
| LogIngestion.LogIsRefusedIff | rust/src/application/log_ingestion.rs:77-103 | a log is refused while stopping, if the parser panics or is full, or as the coordinator says; a refused log leaves no trace |
| LogIngestion.TakenLogWaits | rust/src/application/log_ingestion.rs:77-103 | a log that the parser takes is the new last job, as selected, and awaited |
| LogIngestion.UntakenLogFails | rust/src/application/log_ingestion.rs:77-103 | a log that the parser does not take after all has failed at once in every selected destination, with nothing sent |
| LogIngestion.AnswerReachesItsJob | rust/src/application/log_ingestion.rs:105-119 | the parser's answer reaches the job it is about, as it came, and no other |
| LogIngestion.StoppedIngestionRefuses | rust/src/application/log_ingestion.rs:156-164 | once stopped the ingestion waits for nothing and refuses logs and answers; the uploads are cancelled |
| LogIngestion.LogIngestionCoordinator.Submit | rust/src/application/log_ingestion.rs:77-103 | the in-place call equals its state function |
| LogIngestion.LogIngestionCoordinator.HandleResult | rust/src/application/log_ingestion.rs:105-119 | the in-place call equals its state function |
| LogIngestion.LogIngestionCoordinator.DrainMetadata | rust/src/application/log_ingestion.rs:121-144 | takes results up to the budget or the first empty or failed poll, each as one step of the run, and counts the rejected ones |
| LogIngestion.LogIngestionCoordinator.CancelAll | rust/src/application/log_ingestion.rs:156-164 | the in-place call equals its state function |
| ChatDelivery.CallsAreBounded | rust/src/providers/twitch/chat_delivery.rs:17-96 | at most two sends, the second only after a 401 and with a valid lease of the same user and no earlier revision |
| ChatDelivery.AtMostOneMessage | rust/src/providers/twitch/chat_delivery.rs:17-147 | if refusals and failed connections deliver nothing, at most one message is delivered, and none when the answer is retry, cancelled or reconnect |
| ChatDelivery.ResultIsAcceptable | rust/src/application/twitch_chat.rs:34-43 | every result maps to an outcome that the coordinator accepts for an active attempt with an empty slot |
| ChatDelivery.ResultIsWellFormed | rust/src/providers/twitch/chat_delivery.rs:17-147 | sent and dropped results carry a valid receipt of that kind, retry delays are positive and at most a day |
| ChatDelivery.CallsAreMadeIff | rust/src/providers/twitch/chat_delivery.rs:17-96 | exactly when the first and the second call are made, and with which lease |
| ChatDelivery.LastAnswerDecides | rust/src/providers/twitch/chat_delivery.rs:17-147 | the result by the last answer received: a retryable 429 or a connection never made is retried after the delay asked for if that is usable and after 30 s otherwise; other 4xx answers than 401 and 408 fail; a valid receipt is sent or dropped with that receipt; what is unknown is unconfirmed; and a refusal of the session is told as such |
| ChatDelivery.MessageIsValidIff | rust/src/providers/twitch/chat_delivery.rs:17-27 | a message is valid if and only if it has 1 to 500 characters and no control character; the byte limit never bites |
| ChatDelivery.Send | rust/src/providers/twitch/chat_delivery.rs:17-96 | the loop over leases equals the function of LastAnswerDecides, CallsAreMadeIff and AtMostOneMessage |
| ReplaySafety.StepDefers | rust/src/application/upload_coordinator.rs:254-283 | a deferral enters the log only as the answer of a retry-after result for that attempt |
| ReplaySafety.AutomaticChatPostsAtMostOnce | rust/src/application/upload_coordinator.rs:254-358 | over every run, with results lost, late, repeated or reordered, the automatic chat attempts of a job post at most one message, and none is requested after anything was posted |
| ReplaySafety.DeliveryReachesItsJob | rust/src/application/twitch_chat.rs:34-43 | end to end: what the sender made of an attempt is accepted and leaves the job succeeded or failed with its very receipt, cancelled, failed, or due again after exactly the delay |
| ReplaySafety.RequestIsCaptured | rust/src/providers/donbot/upload_worker.rs:217-236 | over every run, an automatic DonBot request goes out with the configured delivery and one that the user asked for without any |
| ReplaySafety.SettledUploadIsNotPostedAgain | rust/src/providers/donbot/upload_worker.rs:217-236 | once a DonBot attempt settled, later uploads of the job carry no Discord delivery |
| ReplaySafety.RestoredReceiptRefusesSuccess | rust/src/domain/upload_job.rs:384-394 | a concrete restored row whose retry refuses its own success |
| TwitchSession.DecodeAfterEncode | rust/src/application/twitch_session.rs:73-180 | decoding an encoding gives the session back with its expiry at whole seconds |
| TwitchSession.EncodeAfterDecode | rust/src/application/twitch_session.rs:73-180 | any accepted record encodes to the same bytes |
| TwitchSession.EncodingsAreUnique | rust/src/application/twitch_session.rs:73-180 | two records with the same meaning are equal, and so are two sessions with the same record up to whole seconds |
| TwitchSession.AcceptedIffWritten | rust/src/application/twitch_session.rs:121-180 | the decoder accepts exactly what the encoder writes |
| TwitchSession.RecordIsLaidOut | rust/src/application/twitch_session.rs:73-119 | the record byte by byte: magic word, version, seconds, lengths, fields, scope, little-endian |
| TwitchSession.UserIdIsANumber | rust/src/application/twitch_session.rs:58-64 | a user id is valid if and only if it is a positive 64-bit number in usual decimal form |
| TwitchSession.SessionIsKeptIff | rust/src/application/twitch_session.rs:50-97 | exactly which sessions can be kept, and that all others are invalid or too large |
| TwitchSession.RecordIsRefusedAs | rust/src/application/twitch_session.rs:121-180 | which records are refused as too large and which as of another version |
| TwitchSession.Encode | rust/src/application/twitch_session.rs:73-119 | filling one buffer with a moving cursor equals the encoding function |
| TwitchSession.Decode | rust/src/application/twitch_session.rs:121-180 | splitting fields off in a loop equals the decoding function |
| SessionOwnerSpec.StepKeepsValid | rust/src/application/twitch_session_owner.rs:120-386 | every lock section keeps the ownership invariant, a restore under the condition that SessionParties proves of every restore taken |
| SessionOwnerSpec.CommitKeepsValid | rust/src/application/twitch_session_owner.rs:307-320 | a commit stores before it publishes and raises the revision by one |
| SessionOwnerSpec.RestoreKeepsValid | rust/src/application/twitch_session_owner.rs:322-332 | giving back the session as lent keeps the invariant and is not refused |
| SessionOwnerSpec.DiscardKeepsValid | rust/src/application/twitch_session_owner.rs:333-342 | a discard keeps the invariant and closes the transaction |
| SessionOwnerSpec.OthersUndisturbed | rust/src/application/twitch_session_owner.rs:143-166 | while a transaction is open no other party changes anything short of shutting down, and a closed one never opens again |
| SessionLaws.LeaseIsOfActive | rust/src/application/twitch_session_owner/recovery.rs:4-23 | there is a lease if and only if a session is active, and it carries its token, user and generation |
| SessionLaws.StateIsObserved | rust/src/application/twitch_session_owner.rs:364-377 | what the controller sees is the same four cases |
| SessionLaws.CheckoutsAreGrantedIff | rust/src/application/twitch_session_owner.rs:227-288 | exactly when each checkout is granted, and with which cause it is refused |
| SessionLaws.NumbersCanRunOut | rust/src/application/twitch_session_owner.rs:121-132 | an owner that has used up its numbers refuses every checkout and is left as it is |
| SessionLaws.TransactionIsOfItsUser | rust/src/application/twitch_session_owner.rs:227-288 | a transaction is bound to the user it starts from, a reservation to none, and only a borrowed session may go back |
| SessionLaws.BorrowedGoesBack | rust/src/application/twitch_session_owner.rs:280-332 | borrowing and giving back leaves active session, record and lease as they were |
| SessionLaws.CommitSucceedsIff | rust/src/application/twitch_session_owner.rs:307-320 | a commit succeeds if and only if the transaction is open, the user is right, the session can be kept and the store takes it; then it is active, stored and leased under the next revision |
| SessionLaws.PairIsSavedIff | rust/src/application/twitch_session_owner.rs:289-306 | exactly when a pair is saved ahead of its commit; from then on the borrowed session cannot go back, even if the write failed |
| SessionLaws.RestoreSucceedsIff | rust/src/application/twitch_session_owner.rs:322-332 | exactly when the borrowed session goes back; the record is not touched |
| SessionLaws.DiscardSucceedsIff | rust/src/application/twitch_session_owner.rs:333-342 | a discard always closes the transaction; only its erasure can fail |
| SessionLaws.StrangersAreRefused | rust/src/application/twitch_session_owner.rs:143-166 | a call in the name of a transaction that is not open changes nothing and says why |
| SessionLaws.CommittedSurvivesRestart | rust/src/application/twitch_session_owner.rs:214-252 | a committed session is checked out again after a restart, its expiry cut to whole seconds |
| SessionLaws.ErasedIsForgotten | rust/src/application/twitch_session_owner.rs:333-353 | an erased session is gone for good, with a transaction or without |
| SessionLaws.NothingFollowsShutdown | rust/src/application/twitch_session_owner.rs:378-386 | a shutdown keeps the record, and no step changes anything after it |
| SessionParties.AdvancingKeepsPlace | rust/src/application/twitch_session_owner/recovery.rs:123-215 | every move of a recovery, a lock section or an HTTP answer, leads to a place where its transaction is as that place needs it; as long as the session may go back it is unchanged, unwritten and not refreshed |
| SessionParties.MoveKeepsAgreed | rust/src/application/twitch_session_owner/recovery.rs:4-215 | every move of any party takes a permitted step and keeps the invariant of the whole system |
| SessionParties.RestoresArePermitted | rust/src/application/twitch_session_owner/recovery.rs:106-169 | in any interleaving of any number of recoveries, clients and shutdowns, a restore that meets its open transaction is of the session as it was lent, before its refresh was granted and before a write failed, and it is not refused |
| SessionParties.OwnershipHolds | rust/src/application/twitch_session_owner.rs:120-386 | over all such interleavings and store answers: never both an active and a borrowed session, the active session's encoding is what the store holds, nothing is held after shutdown, no transaction restores after its refresh was granted or ends twice, and revisions only rise |
| SessionParties.OpenTransactionHasAnOwner | rust/src/application/twitch_session_owner/recovery.rs:24-66 | no transaction is orphaned: an open one is a client's or that of a recovery that has yet to close it |
| SessionParties.AdvancingLowersDistance | rust/src/application/twitch_session_owner/recovery.rs:123-215 | a recovery ends after a bounded number of moves |
| SessionParties.OthersDropNothing | rust/src/application/twitch_session_owner.rs:143-166 | what the others do between two moves of a party is one turn of the others as the calls of the owner and the controller assume it, with no step left out |
| SessionParties.OthersAreSilent | rust/src/application/twitch_session_owner.rs:143-166 | between two moves of the party that was given a transaction nobody else speaks for it |
| SessionParties.MovesAreTheCall | rust/src/application/twitch_session_owner/recovery.rs:24-215 | the moves of a recovery one after the other, others in between, leave the owner and the outcome of the recovery call |
| SessionRecovery.EndingsAreSafe | rust/src/application/twitch_session_owner/recovery.rs:123-203 | a recovery gives the old session back only if no refresh was granted, and replaces it only by a storable session of the same user |
| SessionRecovery.RotatingIsSettled | rust/src/application/twitch_session_owner/recovery.rs:160-203 | from the granted refresh on the old session is never given back: it is replaced by a validated, stored one or dropped |
| SessionRecovery.RecoveringCurrentIsRecovered | rust/src/application/twitch_session_owner/recovery.rs:123-203 | a recovery ends exactly as planned from the answers of Twitch, clock, store and stop token unless the owner was shut down |
| SessionRecovery.RecoveringIsSafe | rust/src/application/twitch_session_owner/recovery.rs:24-66 | a recovery always closes its transaction, also after a panic, keeps the ownership invariant, and leases only a later revision than the rejected one |
| SessionRecovery.UndisturbedRecoveryRenews | rust/src/application/twitch_session_owner/recovery.rs:24-215 | left alone, a recovery with a replacing ending makes the planned session active and durable and leases it under the next revision; RecoveredSessions.RecoveryRenews says which session that is |
| SessionLaws.RecoveryBeginsIff | rust/src/application/twitch_session_owner/recovery.rs:24-66 | a recovery borrows the session if and only if the rejected lease is of its very generation and token; an older one is given the current lease, any other is refused with its cause |
| SessionLaws.ValidationDecides | rust/src/application/twitch_session_owner/recovery.rs:123-160 | which way the first validation sends a recovery, by stop readings, answer, disposition and identity |
| SessionLaws.RefreshDecides | rust/src/application/twitch_session_owner/recovery.rs:160-203 | which way the refresh sends it, up to the revalidation and the session it replaces |
| SessionLaws.EndingIsKept | rust/src/application/twitch_session_owner/recovery.rs:106-122 | given back means active as before, dropped means gone, the record only if it was to be erased, and the caller is told why |
| RecoveredSessions.GrantedPairIsStored | rust/src/application/twitch_session_owner/recovery.rs:160-189 | in every interleaving: a recovery that goes out to revalidate has the very pair it was granted in the store, for the user it borrowed from |
| RecoveredSessions.RenewedSessionIsCommitted | rust/src/application/twitch_session_owner/recovery.rs:77-94 | in every interleaving: a recovery commits a session with exactly the pair it was granted, or else the one it borrowed, with the identity confirmed last and the expiry that follows from the clock |
| RecoveredSessions.RecoveryCommitsRenewal | rust/src/application/twitch_session_owner/recovery.rs:24-215 | the same of one call with any others in between, and a lease of that generation carries the committed access token |
| RecoveredSessions.RecoveryRenews | rust/src/application/twitch_session_owner/recovery.rs:24-215 | left alone, a recovery that Twitch and store let succeed makes that session active and stored and leases its access token under the next revision |
| TwitchSessionOwner.Owner.CheckoutSaved | rust/src/application/twitch_session_owner.rs:227-252 | the in-place call equals its state function |
| TwitchSessionOwner.Owner.ReserveNew | rust/src/application/twitch_session_owner.rs:265-279 | the in-place call equals its state function |
| TwitchSessionOwner.Owner.CheckoutActive | rust/src/application/twitch_session_owner.rs:280-288 | the in-place call equals its state function |
| TwitchSessionOwner.Owner.PersistPending | rust/src/application/twitch_session_owner.rs:289-306 | the in-place call equals its state function: the transaction stops being restorable even if the write fails |
| TwitchSessionOwner.Owner.Commit | rust/src/application/twitch_session_owner.rs:307-320 | the in-place call equals its state function |
| TwitchSessionOwner.Owner.Restore | rust/src/application/twitch_session_owner.rs:322-332 | the in-place call equals its state function |
| TwitchSessionOwner.Owner.Discard | rust/src/application/twitch_session_owner.rs:333-342 | the in-place call equals its state function |
| TwitchSessionOwner.Owner.EraseSaved | rust/src/application/twitch_session_owner.rs:343-353 | the in-place call equals its state function |
| TwitchSessionOwner.Owner.Shutdown | rust/src/application/twitch_session_owner.rs:378-386 | the in-place call equals its state function |
| TwitchSessionOwner.Owner.Acquire | rust/src/application/twitch_session_owner/recovery.rs:4-23 | leases the active session, or says why not |
| TwitchSessionOwner.Owner.CheckRecovery | rust/src/application/twitch_session_owner/recovery.rs:70-76 | the check at the lock equals its function: refused on a stop request or a lost transaction |
| TwitchSessionOwner.Owner.FinishRecovery | rust/src/application/twitch_session_owner/recovery.rs:204-215 | commit, or discard without erasing, and the lease afterwards equal their function |
| TwitchSessionOwner.Owner.Rotate | rust/src/application/twitch_session_owner/recovery.rs:160-203 | the in-place call equals its function of owner, others and answers, which RecoveredSessions and SessionLaws.RefreshDecides are about |
| TwitchSessionOwner.Owner.RecoverCurrent | rust/src/application/twitch_session_owner/recovery.rs:123-203 | the in-place call equals its function of owner, others and answers |
| TwitchSessionOwner.Owner.Recover | rust/src/application/twitch_session_owner/recovery.rs:24-66 | the in-place call, with a panic caught, equals its function of owner, others and answers, which RecoveredSessions.RecoveryCommitsRenewal is about |
| AuthenticationPromises.FirstTokenIsNotStored | rust/src/application/twitch_authentication_controller/results.rs:4-74 | whatever the device-code requests come back with, the saved record is untouched, no session becomes active and nothing is shown as connected |
| AuthenticationPromises.RotationIsStoredBeforeValidation | rust/src/application/twitch_authentication_controller/results.rs:206-234 | a rotated pair goes out for validation only with exactly that pair stored under the same user, login and expiry |
| AuthenticationPromises.PublicationFollowsValidation | rust/src/application/twitch_authentication_controller/results.rs:159-205 | a published session is the validated pair with the validated identity, of the same user as before if the flow had one, active, stored, under the next revision, shown with login and expiry, and scheduled: validated within the hour, refreshed five minutes before it expires |
| AuthenticationPromises.UnusableSessionIsErased | rust/src/application/twitch_authentication_controller/results.rs:159-302 | a changed user, or a second reconnect answer after the refresh, ends the flow and erases the saved session |
| AuthenticationPromises.DisconnectingAlwaysErases | rust/src/application/twitch_authentication_controller.rs:298-311 | whatever comes of the remote revocation, including malformed results, panics and a shutdown, the local session is erased or the store's refusal is shown |
| AuthenticationPromises.EveryRevocationErases | rust/src/application/twitch_authentication_controller.rs:298-473 | in every reachable state with a revocation in flight its end forgets the session, unless the owner was shut down |
| AuthenticationPromises.SettingsComeFirst | rust/src/application/twitch_authentication_controller.rs:409-456 | if switching posting off cannot be saved, nothing is revoked or erased and the flow stays as it is |
| AuthenticationPromises.RetryRepeatsTheRequest | rust/src/application/twitch_authentication_controller/results.rs:235-302 | a transient failure repeats the same request with the same pair, not before the bounded delay |
| AuthenticationPromises.PollsRespectTheInterval | rust/src/application/twitch_authentication_controller/results.rs:120-140 | the code is held back exactly until the longer of interval and delay is over, and then polled with again |
| AuthenticationPromises.ConnectionStarts | rust/src/application/twitch_authentication_controller.rs:230-235 | with nothing in its way a connection asks for a device code under a fresh transaction during which chat gets no lease |
| AuthenticationPromises.ValidIdentityIsPublished | rust/src/application/twitch_authentication_controller/results.rs:159-205 | a storable validated identity of the right user is published |
| AuthenticationPromises.LateGrantIsRefused | rust/src/application/twitch_authentication_controller.rs:312-326 | after the authorization expired no result is looked at and the flow ends without touching the store |
| AuthenticationPromises.DueCheckGoesOut | rust/src/application/twitch_authentication_controller.rs:342-408 | when a check is due and the owner is free, the session is borrowed, its identity hidden and its very pair sent: for a refresh if that is due and for validation otherwise |
| AuthenticationPromises.ConnectionSucceeds | rust/src/application/twitch_authentication_controller.rs:230-408 | a whole run: a connection left alone goes from the device code over the poll with that code and the grant to the validated session, shown, active, stored and of the next revision, with nothing stored before and exactly these requests |
| AuthenticationPromises.RenewalSucceeds | rust/src/application/twitch_authentication_controller.rs:342-408 | a whole run: a due refresh left alone hides the identity, stores the rotated pair before it is validated, and ends with the validated session of the next revision, with exactly these requests |
| AuthenticationAnswers.RejectedSessionIsRefreshed | rust/src/application/twitch_authentication_controller/results.rs:291-296 | a reconnect answer to the check of a saved or active session sends a refresh of the very pair under the same transaction, and the store stays |
| AuthenticationAnswers.FailedCheckEnds | rust/src/application/twitch_authentication_controller/results.rs:235-302 | every other failure of a check that is not retried ends the flow with its cause; the record is erased exactly after a refresh or if the pair came back damaged, so not by the first validation of a new connection |
| AuthenticationAnswers.FailedDeviceFlowEnds | rust/src/application/twitch_authentication_controller/results.rs:235-302 | a failure of the device flow ends it and leaves the record, unless a poll is to be repeated |
| AuthenticationAnswers.FailedPollIsRepeated | rust/src/application/twitch_authentication_controller/results.rs:235-302 | a poll worth repeating is repeated with the same code after the longer of interval and delay |
| AuthenticationAnswers.UnfitResultEnds | rust/src/application/twitch_authentication_controller/results.rs:4-74 | a result counts only for the request in flight, and one of the wrong kind ends the flow as invalid |
| AuthenticationAnswers.DeviceIsTakenIff | rust/src/application/twitch_authentication_controller/results.rs:75-119 | exactly which device answers are shown: sane lifetimes, code and user code, and a link to Twitch's activation page |
| AuthenticationAnswers.GrantIsTakenIff | rust/src/application/twitch_authentication_controller/results.rs:4-74 | a grant goes on to its validation if and only if it has two tokens, exactly the chat scope and a usable lifetime; nothing is saved |
| AuthenticationAnswers.UnusableRotationEnds | rust/src/application/twitch_authentication_controller/results.rs:206-234 | a refresh that cannot be used ends the flow and erases the record |
| AuthenticationAnswers.UnsavedRefreshEnds | rust/src/application/twitch_authentication_controller/results.rs:206-234 | so does one that the store does not take |
| AuthenticationAnswers.UnusableIdentityEnds | rust/src/application/twitch_authentication_controller/results.rs:159-205 | an identity of another user, or one that cannot be kept, ends the flow and erases the record |
| AuthenticationAnswers.UnsavedIdentityEnds | rust/src/application/twitch_authentication_controller/results.rs:159-205 | a validated session that the store does not take ends the flow; the record is erased only if it was rotated before |
| AuthenticationFaults.UntakenRequestEnds | rust/src/application/twitch_authentication_controller.rs:267-297 | a request that the worker does not take ends the flow, with the record exactly if that was rotated |
| AuthenticationFaults.UntakenRevocationErases | rust/src/application/twitch_authentication_controller.rs:267-297 | a revocation that the worker does not take is given up, and the session erased all the same |
| AuthenticationFaults.UnreachableDeadlineEnds | rust/src/application/twitch_authentication_controller/results.rs:120-302 | a deadline that the clock cannot express ends the flow: a retry and a poll without an erasure, a publication with one if the record was rotated |
| AuthenticationFaults.UnreachableScheduleEnds | rust/src/application/twitch_authentication_controller.rs:346-408 | so does a new session whose checks the clock cannot express |
| AuthenticationFaults.GarbledCodeEnds | rust/src/application/twitch_authentication_controller/results.rs:120-140 | a device code that came back unusable ends the flow |
| AuthenticationFaults.MissingPieceEnds | rust/src/application/twitch_authentication_controller/results.rs:120-234 | a flow that lacks its pair, identity, authorization or code ends as in an invalid state, after a refresh with the record |
| AuthenticationFaults.PanicEnds | rust/src/application/twitch_authentication_controller.rs:298-311 | a panic of a port ends the flow like an internal error, with the record exactly if that was rotated, and a disconnection by erasing |
| AuthenticationFaults.RoundPanics | rust/src/application/twitch_authentication_controller.rs:312-326 | a round panics if the clock cannot be read, or in time the worker's answer cannot be |
| AuthenticationFaults.QuietRoundsDoNothing | rust/src/application/twitch_authentication_controller.rs:312-345 | with no answer nothing happens while a request is under way, before a deadline, and with no flow open |
| AuthenticationFaults.OwnerErrorIsShown | rust/src/application/twitch_authentication_controller.rs:568-585 | each refusal of the owner is shown as its own cause |
| AuthenticationFaults.SavedSessionIsMissing | rust/src/application/twitch_authentication_controller.rs:236-247 | without a saved session nothing happens; one that cannot be loaded or read is reported and stays |
| AuthenticationFaults.BusyOwnerStartsNothing | rust/src/application/twitch_authentication_controller.rs:230-235 | no connection starts while another party has the session, or with one active |
| AuthenticationFaults.DueCheckWaits | rust/src/application/twitch_authentication_controller.rs:342-408 | a due check waits while another party has the session, and ends the connection if there is none any more |
| AuthenticationFaults.ShutdownIsFinal | rust/src/application/twitch_authentication_controller.rs:542-562 | a shutdown stops the owner and leaves nothing of the flow, and no call does anything after it |
| AuthenticationFaults.CallsAreNumbered | rust/src/application/twitch_authentication_controller.rs:525-541 | whatever a call changes of what is shown, its revision number rises |
| ConnectionFlows.SavedConnectionSucceeds | rust/src/application/twitch_authentication_controller.rs:236-408 | a whole run: the saved session goes out for validation and is shown, active and stored again under the next revision |
| ConnectionFlows.RejectedConnectionRecovers | rust/src/application/twitch_authentication_controller.rs:236-408 | a whole run: the saved token is rejected, the pair refreshed, the rotation stored before its validation, and the user connected again, with exactly these three requests |
| ConnectionFlows.OwnerIsFollowed | rust/src/application/twitch_authentication_controller.rs:346-408 | while connected: a session under way is hidden, the same one back keeps its deadlines, a new one is shown and scheduled, a lost one shown as lost, and with nothing due nothing happens |
| ConnectionFlows.RevocationGoesOut | rust/src/application/twitch_authentication_controller.rs:409-456 | disconnecting sends the access token of the active or else the saved session for revocation |
| ConnectionFlows.NothingToRevoke | rust/src/application/twitch_authentication_controller.rs:409-473 | with no readable session the record is just erased |
| ConnectionFlows.UnloadableRecordStays | rust/src/application/twitch_authentication_controller.rs:409-456 | a record that cannot be loaded is neither revoked nor erased |
| ConnectionFlows.WaitingPairIsRevoked | rust/src/application/twitch_authentication_controller.rs:409-456 | a flow that waits with its pair is given up by revoking that token |
| ConnectionFlows.BusyOwnerRefuses | rust/src/application/twitch_authentication_controller.rs:409-456 | while another party has the session nothing is done |
| ConnectionFlows.DisconnectionEnds | rust/src/application/twitch_authentication_controller.rs:409-473 | a whole run: the token is revoked, and whatever comes of that the session is erased and the failure shown |
| ConnectionFlows.ConnectionIsRefusedIff | rust/src/application/twitch_authentication_controller.rs:204-247 | exactly when a connection is refused, with which cause, and without a change |
| AuthenticationRuns.RunsAreDisciplined | rust/src/application/twitch_authentication_controller.rs:230-562 | over any calls, results, port answers and steps of other parties: the controller's transaction is the owner's open one unless it stopped, every open flow has a request in flight, a deferral with its pair or a device code, no request id is accepted twice or out of order, requests of a transaction go one way, a shown identity is that of the session published under its revision, and the next validation is due within the hour |
| AuthenticationRuns.ShownIdentityIsPublished | rust/src/application/twitch_authentication_controller.rs:342-408 | over every run a shown login is that of the owner's active, stored session unless that was replaced since, and its validation is due within an hour of the latest clock reading |
| AuthenticationRuns.NoRefreshAfterRotation | rust/src/application/twitch_authentication_controller/results.rs:235-302 | one refresh path: over every run, after a rotated or an initial pair was sent for validation, its transaction never refreshes |
| AuthenticationRuns.TickedIsOrdered | rust/src/application/twitch_authentication_controller.rs:298-408 | a tick keeps the discipline, a panicking port included |
| AuthenticationRuns.ResultHandledIsOrdered | rust/src/application/twitch_authentication_controller/results.rs:4-74 | so does every result, in order or not |
| AuthenticationRuns.DisconnectedByIsOrdered | rust/src/application/twitch_authentication_controller.rs:409-445 | so does disconnecting |
| AuthenticationRuns.ShutDownIsOrdered | rust/src/application/twitch_authentication_controller.rs:542-562 | so does shutting down |
| ControllerParty.CallLeads | rust/src/application/twitch_authentication_controller.rs:230-562 | whatever the ports answer, all that one call does to the owner are steps of a client that restores nothing, recovers nothing and names only transactions it was given, with the others' turns in between |
| ControllerParty.CallsLead | rust/src/application/twitch_authentication_controller.rs:230-562 | the same over any calls from the start, and the transaction of the flow, if any, is one it was given |
| ControllerParty.CallsHaveActs | rust/src/application/twitch_authentication_controller.rs:230-562 | every run of calls consists of such steps and turns and leaves the owner exactly as they do |
| ControllerParty.PlayIsARun | rust/src/application/twitch_session_owner.rs:120-386 | such a client's work, with any moves of recoveries and other clients in its turns, is an unfiltered run of all the parties and leaves the owner the client sees |
| ControllerParty.OneRun | rust/src/application/twitch_authentication_controller.rs:230-562 | any calls of the controller and any moves of the others are one run of all the parties, and in its last state both the ownership properties and the controller's discipline hold |
| TwitchAuthenticationController.Controller.BeginConnection | rust/src/application/twitch_authentication_controller.rs:230-235 | the in-place call equals its function of fields, owner, other parties and ports |
| TwitchAuthenticationController.Controller.BeginSavedConnection | rust/src/application/twitch_authentication_controller.rs:236-247 | the same for the saved session |
| TwitchAuthenticationController.Controller.Dispatch | rust/src/application/twitch_authentication_controller.rs:267-297 | hands out a fresh request id, or fails the flow; a refused revocation still finishes the disconnection |
| TwitchAuthenticationController.Controller.DispatchCredentials | rust/src/application/twitch_authentication_controller.rs:252-266 | moves the draft's pair into the request, or fails the flow |
| TwitchAuthenticationController.Controller.Tick | rust/src/application/twitch_authentication_controller.rs:298-311 | one round equals its function; a panic of any port ends the flow like an error |
| TwitchAuthenticationController.Controller.TickInner | rust/src/application/twitch_authentication_controller.rs:312-408 | expiry, then results, then deferrals, then polls, then the schedule |
| TwitchAuthenticationController.Controller.TickConnected | rust/src/application/twitch_authentication_controller.rs:346-408 | follows the owner: hides the identity during a recovery, adopts a new generation, keeps the deadlines of a restored one, and checks up when due |
| TwitchAuthenticationController.Controller.Disconnect | rust/src/application/twitch_authentication_controller.rs:409-445 | equals its function: settings first, then the active or the saved session is revoked, or erased |
| TwitchAuthenticationController.Controller.FinishDisconnect | rust/src/application/twitch_authentication_controller.rs:457-473 | erases with or without a transaction and shows how it went |
| TwitchAuthenticationController.Controller.Fail | rust/src/application/twitch_authentication_controller.rs:510-524 | closes the transaction, erases if asked, and shows the cause or the cleanup error |
| TwitchAuthenticationController.Controller.Shutdown | rust/src/application/twitch_authentication_controller.rs:542-562 | finishes a disconnection in flight, then stops the owner; nothing is open afterwards |
| TwitchAuthenticationController.Controller.HandleResult | rust/src/application/twitch_authentication_controller/results.rs:4-74 | a result counts only for the request in flight and once; a stale one changes nothing |
| TwitchAuthenticationController.Controller.HandleFailure | rust/src/application/twitch_authentication_controller/results.rs:235-302 | equals its function by phase and disposition, which AuthenticationAnswers says the meaning of |
| TwitchAuthenticationController.Controller.AcceptDevice | rust/src/application/twitch_authentication_controller/results.rs:75-119 | equals its function |
| TwitchAuthenticationController.Controller.DeferPoll | rust/src/application/twitch_authentication_controller/results.rs:120-140 | equals its function |
| TwitchAuthenticationController.Controller.AcceptValidation | rust/src/application/twitch_authentication_controller/results.rs:159-205 | equals its function |
| TwitchAuthenticationController.Controller.AcceptRotation | rust/src/application/twitch_authentication_controller/results.rs:206-234 | equals its function |
| TwitchAuthenticationController.Controller.Drive | rust/src/application/twitch_authentication_controller.rs:230-562 | any sequence of calls updates fields and owner as the run function that AuthenticationRuns is about |
| LogDiscovery.AcceptancesAreSpaced | rust/src/domain/log_discovery.rs:90-150 | between two emissions of one identity lies its release or at least the history limit of other acceptances |
| LogDiscovery.EmittedIff | rust/src/domain/log_discovery.rs:51-81 | a candidate is emitted if and only if it is not known and this is its last required identical look |
| LogDiscovery.LookConfirms | rust/src/domain/log_discovery.rs:51-81 | the pending count of a path is backed by as many consecutive identical looks |
| LogDiscovery.AcceptKeepsRemembering | rust/src/domain/log_discovery.rs:90-108 | accepting keeps known the set of the duplicate-free queue within its limit |
| LogDiscovery.ReleaseKeepsRemembering | rust/src/domain/log_discovery.rs:130-133 | so does releasing |
| DiscoveredFiles.LookCounts | rust/src/domain/log_discovery.rs:51-81 | what each look leads to: refused, forgotten, counted once more or anew, or emitted |
| DiscoveredFiles.SteadyFileIsEmitted | rust/src/domain/log_discovery.rs:51-81 | an unchanged new candidate is emitted with exactly the look that makes the number required |
| DiscoveredFiles.CandidateIff | rust/src/domain/log_discovery.rs:13-17 | a candidate is a file whose name has a stem and the extension zevtc in any case |
| DiscoveredFiles.NewFilesAreQueued | rust/src/domain/log_discovery.rs:90-128 | seeding new files leaves the last ones of queue and files up to the limit, in order |
| DiscoveredFiles.KnownFilesStayPut | rust/src/domain/log_discovery.rs:90-128 | seeding remembered files changes nothing, not their place either |
| DiscoveredFiles.SeededAreRemembered | rust/src/domain/log_discovery.rs:111-128 | a history seeded into a new queue is remembered whole, and nothing else is |
| LogDiscovery.Discovery.Create | rust/src/domain/log_discovery.rs:30-49 | succeeds exactly for two or more matches and limits in range |
| LogDiscovery.Discovery.Observe | rust/src/domain/log_discovery.rs:51-81 | the in-place call equals its function and keeps the history sound |
| LogDiscovery.Discovery.Remember | rust/src/domain/log_discovery.rs:90-108 | queues a new identity, dropping the oldest at the limit, and leaves a known one alone |
| LogDiscovery.Discovery.Seed | rust/src/domain/log_discovery.rs:111-128 | remembers the files in order, or refuses all of them |
| LogDiscovery.Discovery.Release | rust/src/domain/log_discovery.rs:130-133 | removes exactly that identity from queue and set |
| LogDiscovery.Discovery.ForgetPending | rust/src/domain/log_discovery.rs:135-138 | forgets exactly that path's looks |
| LogDiscovery.Discovery.ClearPending | rust/src/domain/log_discovery.rs:139-141 | forgets every path's looks |
| LogDiscovery.Discovery.SetRequiredMatches | rust/src/domain/log_discovery.rs:143-150 | refuses fewer than two matches, otherwise starts every look anew |
| GregorianTime.DatesAreDistinct | rust/src/ui/recent_logs.rs:253-297 | valid dates with the same day number are equal |
| GregorianTime.DaysBeforeYearFormula | rust/src/ui/recent_logs.rs:253-297 | the year lengths under the leap rule add up to the closed form |
| GregorianTime.MomentsAreDistinct | rust/src/ui/recent_logs.rs:253-297 | a second belongs to one date and time of day |
| GregorianTime.EpochIsZero | rust/src/ui/recent_logs.rs:253-297 | midnight of 1 January 1970 is second zero |
| GregorianTime.SecondsAreCounted | rust/src/ui/recent_logs.rs:253-297 | one second later on the calendar and the clock is one more in the count |
| GregorianTime.YearOf | rust/src/ui/recent_logs.rs:262-284 | the cycle divisions yield the year and day whose independently defined day count is the input |
| GregorianTime.MonthOf | rust/src/ui/recent_logs.rs:285-297 | the month loop yields the month and day of the year |
| GregorianTime.RenderedReadsBack | rust/src/ui/recent_logs.rs:285-297 | the text has the usual form, and its digits read back as the date and time |
| GregorianTime.FormatUtcSeconds | rust/src/ui/recent_logs.rs:253-297 | the text is that of the one valid date and time of the second, or unavailable exactly if there is none |
| Multipart.HonestSourceServes | rust/src/http/body_sources.rs:14-45 | a source that holds exactly its declared bytes and neither fails nor overruns is read without an error to its end, however small the buffers and however little of them it fills |
| Multipart.FaultsAreTold | rust/src/http/body_sources.rs:204-241 | a source with too little or too much, one that overruns its buffer, fails or panics is told as that |
| Multipart.ExactLengthBody.Create | rust/src/http/body_sources.rs:187-200 | refuses a panicking or oversized declaration |
| Multipart.ExactLengthBody.ReadInner | rust/src/http/body_sources.rs:204-241 | cancelled exactly on a stop request, otherwise as due: the next bytes, and with the last of them the proof that the source ends there |
| Multipart.ExactLengthBody.Read | rust/src/http/body_sources.rs:246-257 | the first failure is final; until then reads deliver the content, and its end is reported only if exactly the declared bytes were there |
| Multipart.AcceptableMeans | rust/src/http/multipart.rs:54-107 | acceptance part by part is validity of each part and a total within the limit |
| Multipart.PrefixIsDelimiterAndHeaders | rust/src/http/multipart.rs:76-92 | the generated prefix is the delimiter line, the headers and the empty line of section 5.1.1 of RFC 2046 |
| FormLaws.PartIsValidIff | rust/src/http/multipart.rs:118-141 | exactly what is wrong with a part: its name, its file name, or a content type that is not two tokens with a slash between (section 5.6.2 of RFC 9110) |
| FormLaws.BoundaryIsValidIff | rust/src/http/multipart.rs:58-64 | a boundary is valid if and only if it is a token of at most 70 characters |
| FormLaws.FormIsAcceptedIff | rust/src/http/multipart.rs:54-117 | a form of sources that declare what they hold is accepted if and only if it has 1 to 16 valid parts, a valid boundary and a framing of at most 512 MiB |
| Multipart.WithBoundary | rust/src/http/multipart.rs:54-107 | succeeds exactly for valid parts and boundary within the limits; what will be streamed is the framing of the parts |
| Multipart.MultipartBody.ReadFront | rust/src/http/multipart.rs:181-195 | one read of the front segment; its failure is the segment's |
| Multipart.MultipartBody.Read | rust/src/http/multipart.rs:169-196 | returns the next bytes of the whole, ends only when all of it was returned at the declared length, fails for good, and never fails without a stop request or a source that breaks its word |
| Multipart.ReadAll | rust/src/http/multipart.rs:169-196 | for any non-empty buffer sizes the bytes returned are a prefix of the whole, then exactly the whole, then nothing |
| Multipart.StreamForm | rust/src/http/multipart.rs:54-196 | a form that ends has streamed its framing; with sources that keep their word and no stop request it ends |
| HistoryStore.UpsertingIsMerging | rust/src/config/history_store.rs:59-86 | inserting the updates one by one equals replacing old rows in place and appending the new ones in update order, with unique identities |
| HistoryStore.MergeKeepsOthers | rust/src/config/history_store.rs:59-86 | merged rows are within capacity, come from the updates if mentioned there and are old rows otherwise |
| HistoryStore.MergedRowsAreStorable | rust/src/config/history_store.rs:59-86 | merging valid rows gives valid rows |
| HistoryStore.NothingIsLost | rust/src/config/history_store.rs:59-78 | without a limit every row keeps its place and every update is there |
| HistoryStore.OldestMakeRoom | rust/src/config/history_store.rs:59-86 | with a limit the newest rows stay, in order |
| HistoryStore.SameFileIff | rust/src/domain/upload_job.rs:123-166 | two rows are of one file if and only if size, time and path agree, the path up to the long form of its prefix |
| HistoryStore.MergeIndexed | rust/src/config/history_store.rs:59-78 | the loop with its hash index equals inserting one by one |
| HistoryStore.ValidateRecords | rust/src/config/history_json.rs:88-101 | accepts exactly distinct storable rows within a capacity in range |
| HistoryStore.JsonUploadHistoryStore.MergeAndSave | rust/src/config/history_store.rs:59-86 | saves and adopts the last rows of the merge, or leaves memory unchanged; fails exactly on invalid updates, encoding or writing |
| ZevtcArchive.LastEndIsLast | rust/src/evtc/zevtc_archive.rs:221-260 | the end record used is the last one whose comment reaches the end of the file (section 4.3.16 of the PKWARE APPNOTE) |
| ZevtcArchive.FindEnd | rust/src/evtc/zevtc_archive.rs:221-260 | the backward scan finds it |
| ZevtcArchive.ScanExtra | rust/src/evtc/zevtc_archive.rs:324-340 | the loop over extra fields finds the one ZIP64 field or refuses a malformed list |
| ZevtcArchive.SelectEntry | rust/src/evtc/zevtc_archive.rs:351-422 | the loop over the records picks what the recursive scan picks, or is cancelled exactly if asked |
| ZevtcArchive.ReadPayload | rust/src/evtc/zevtc_archive.rs:159-179 | chunks of any size add up to the stream or to its refusal, or it is cancelled exactly if asked |
| ZevtcArchive.Unpack | rust/src/evtc/zevtc_archive.rs:122-148 | the payload of the announced size and checksum, or a refusal |
| ZevtcArchive.ExtractFrom | rust/src/evtc/zevtc_archive.rs:78-148 | the bytes that extraction yields, or its refusal, or a cancellation exactly if asked |
| ZevtcSoundness.ExtractionIsSound | rust/src/evtc/zevtc_archive.rs:78-148 | on success the records tile the directory, it abuts its end record, header, data and descriptor lie before it, the descriptor with 64-bit sizes exactly if a size of the directory's record or of the local header is saturated, and size, checksum and, for a stored entry, the very bytes are right |
| ZevtcSoundness.DirectoryAbutsItsEnd | rust/src/evtc/zevtc_archive.rs:221-311 | an accepted directory ends where its end record begins (sections 4.3.14 to 4.3.16 of the PKWARE APPNOTE) |
| ZevtcSoundness.RecordsTile | rust/src/evtc/zevtc_archive.rs:351-422 | an accepted directory is exactly its announced number of records one after the other |
| ZevtcSoundness.PickedIsDistinguished | rust/src/evtc/zevtc_archive.rs:351-422 | the entry picked is the only log of the archive, or its only file if none is named as a log |
| ZevtcSoundness.PayloadLiesBeforeDirectory | rust/src/evtc/zevtc_archive.rs:424-502 | a local header with the entry's flags, method, name, checksum and sizes (zero allowed when streamed, 64-bit sizes in its ZIP64 field), then right behind its extra fields the data, then a matching descriptor, 64 bits wide exactly if a size is saturated in the directory's record or in the local header, lie before the directory |
| ZevtcAcceptance.FieldsAreReadIff | rust/src/evtc/zevtc_archive.rs:324-340 | extra fields are read if and only if they are a list of tagged fields with at most one ZIP64 field, and that one is found |
| ZevtcAcceptance.RecordIsReadIff | rust/src/evtc/zevtc_archive.rs:351-422 | a record is read if and only if it lies in the directory as its fields say |
| ZevtcAcceptance.LogNameIff | rust/src/evtc/zevtc_archive.rs:351-422 | a name is a log's if and only if it ends in .evtc in any case |
| ZevtcAcceptance.LeafFollowsLastSlash | rust/src/evtc/zevtc_archive.rs:351-422 | the last part of a path follows the last slash of either kind |
| ZevtcAcceptance.EntryIsPickedIff | rust/src/evtc/zevtc_archive.rs:351-422 | an entry is picked if and only if the records are readable and it is their only log, or their only file if there is no log |
| ZevtcAcceptance.EndIsFoundIff | rust/src/evtc/zevtc_archive.rs:221-260 | an end record is found if and only if there is a last one, and that is it |
| ZevtcAcceptance.DirectoryIsReadIff | rust/src/evtc/zevtc_archive.rs:221-311 | a directory is accepted if and only if its end records say so consistently, in plain or in ZIP64 form |
| ZevtcAcceptance.DescriptorIsReadIff | rust/src/evtc/zevtc_archive.rs:471-502 | a descriptor is accepted if and only if it repeats checksum and sizes, with or without its signature |
| ZevtcAcceptance.PayloadIsFoundIff | rust/src/evtc/zevtc_archive.rs:424-502 | the payload is found if and only if header, data and descriptor lie in front of the directory |
| ZevtcAcceptance.PayloadYieldsIff | rust/src/evtc/zevtc_archive.rs:122-148 | a payload amounts to an output if and only if that has the recorded size and checksum |
| ZevtcAcceptance.ExtractionSucceedsIff | rust/src/evtc/zevtc_archive.rs:78-148 | which archives are read, and to what, in both directions: size within the limit, a directory in front of its last end record, one entry, headers and data in front of the directory, and data that amount to the output |
| ZevtcAcceptance.LimitsAreTold | rust/src/evtc/zevtc_archive.rs:78-148 | an archive or a directory that is too large is refused for the limit, one of another size as invalid |
| ZevtcAcceptance.TooLargeIsTold | rust/src/evtc/zevtc_archive.rs:78-148 | so is a log that is too large, or too large for what it is compressed from |
| ZevtcRoundTrip.StoredArchiveReadsBack | rust/src/evtc/zevtc_archive.rs:78-148 | a single stored log within limits, with any versions, stamps, non-directory attributes, extra fields and entry comment, extracts to its payload if and only if its directory record does not end like a ZIP64 locator, and is refused as invalid otherwise |
| ZevtcRoundTrip.VariablePartForges | rust/src/evtc/zevtc_archive.rs:221-311 | unless the internal attributes contain the byte 0x50, that is the case exactly if the last 20 bytes of name, extra fields and comment begin with the locator signature |
| ZevtcRoundTrip.LocatorIsForged | rust/src/evtc/zevtc_archive.rs:221-311 | the reader sees a locator exactly when the record in front of the end record forges one |
| ZevtcRoundTrip.ForgedDirectoryIsInvalid | rust/src/evtc/zevtc_archive.rs:252-311 | whatever a forged locator points to, the directory is refused |
| ZevtcRoundTrip.ForgedNameIsRefused | rust/src/evtc/zevtc_archive.rs:221-311 | a concrete log name whose archive is refused |
| ZevtcRoundTrip.ForgedAttributesAreRefused | rust/src/evtc/zevtc_archive.rs:221-311 | concrete attributes with which an archive with a ten-byte name is refused |

## Left out

- Rendering, DPAPI, libcurl, Windows paths, real files and real clocks: their answers are parameters.
- Wire formats, JSON encoding and HTTP classification: tables and library code.
- DEFLATE, CRC-32 and UTF-8 validation: DEFLATE and CRC-32 are arbitrary functions, and the byte checks of the session record already refuse what UTF-8 validation would.
- Allocation failures, poisoned mutexes, diagnostic texts and view models.
- Condition-variable timing: a wait is a guarded step; that every guard-opening change notifies all waiters is not modelled.
- Restarts: replay safety is claimed for one coordinator lifetime.
- Metadata calls through the ingestion's mutable access to the coordinator: its documentation forbids them, and the ingestion runs exclude them.
- Updating a provider's configuration, the queue capacity of the parser, and cancelling the ports when the coordinator stops.
- The chat worker's own ledger of settled jobs: an attempt it answers itself counts as one that posted nothing.
- Field validity of history rows: a parameter of the store. Recovery of a damaged history file is not modelled.
- The random boundary of a multipart form, and file-backed body sources.
- The bytes a port source delivers do not depend on the buffer sizes, only how many of them and whether it fails; and a port that answers nothing has nothing left. A read of the archive file that fails midway is not modelled.
- ZevtcRoundTrip.StoredArchiveReadsBack: the archives it writes have one entry, stored and not streamed, and no archive comment; which other archives are read is `ZevtcAcceptance.ExtractionSucceedsIff`.
- ChatDelivery.AtMostOneMessage: rests on the assumption that sends answered 401 or 429, or failing at name resolution, connection or TLS, deliver nothing.
- ReplaySafety.AutomaticChatPostsAtMostOnce: rests on the same assumption, and on chat results being those of the job's attempts.
