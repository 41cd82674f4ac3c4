# A verified model of the download manager

This Dafny project models the core of a download manager written in Rust and proves what its design promises.
`dafny verify dfyconfig.toml` checks all of it.

**The manager.** `ManagerModel.dfy` gives every operation as a function from state to state: the queue, the records,
the table, the pause intents, the event log, the tasks of the runtime and the cancellation permits. A step is one
public call, one progress callback, the part of a download task before its backend, the part after it, or a task that
vanishes because a shutdown aborted it. Whether database call number n succeeds (connecting and listing are the first
two) and what clock reading number n says are arbitrary functions. `Manager.dfy` is the object itself: its methods
change fields in place in the program's order, and each is proved to be the step it stands for. `Safety.dfy` and
`SafeSteps.dfy` hold the invariant that survives failing saves; `Consistency.dfy` and `ConsistentSteps.dfy` the one
that needs them to work; `Recovery.dfy` opens a manager on any table. The results about whole runs and single calls
follow. What each step makes of records, log, answers, tasks and marks, field by field: `Outcomes.dfy`,
`Announcements.dfy`, `TaskLives.dfy` and `Permits.dfy`, by way of `Agenda.dfy` (whom a step begins, said before it is
taken). What holds over runs: `Runs.dfy`, `Lives.dfy` (records that fit their states), `Scheduling.dfy`,
`Fairness.dfy` and `Starvation.dfy`; `Faults.dfy`, `Stuck.dfy` and `Agreement.dfy` (what a failing disk breaks,
exactly); `Crashes.dfy` and `CrashPoints.dfy` (what a crash inside a step loses, and when it can strike);
`Attempts.dfy` (what a pause leads to); `SharedBandwidth.dfy` and `CapLimits.dfy` (the bound on the shared rate, and
when the cap itself is kept); `Histories.dfy` and `Effects.dfy`.

**Threads.** `Interleaving.dfy` splits the operations into the critical sections of the lock around the records and
lets any number of threads interleave them; `Refinement.dfy` shows that every run of the manager is one of these
interleavings.

**The parts.** `Lifecycle.dfy` (state machine), `Queue.dfy`, `Scheduler.dfy` (selector), `Records.dfy` (records, rows,
store), `Bandwidth.dfy` (cap and token bucket, over exact reals), `Storage.dfy`, `Body.dfy` and `Engine.dfy` (partial
files, how a response body ends, and the transfer loop with its limiter, over a filesystem that may fail at any call),
`Backend.dfy` (that transfer as the manager's backend), `FileNames.dfy` and `PercentDecode.dfy` (codecs).

Where code and documentation disagree the model follows the code:

* docs/ARCHITECTURE.md:144-147 says `start` calls `schedule()`; the code begins only the download named
  (`Fairness.StartDoesNotSchedule`).
* docs/ARCHITECTURE.md:179-181 requeues interrupted downloads "so the scheduler can restart" them; `open` never
  schedules, so they wait for the next call that does (`Fairness.OpenLeavesQueueWaiting`).
* crates/download-manager/src/bandwidth.rs:11-12 promises one global cap shared by the active downloads; an attempt
  keeps the share it was given when fewer were active, so the shares can add up to more
  (`CapLimits.CapIsKeptExactlyWhen`, `CapLimits.BoundIsReached`).
* crates/storage/src/path.rs:217-218 calls a sanitised name always safe; a long name is not
  (`FileNames.PassesExactlyWhenShort`, `FileNames.SafetyPromiseFails`).

## Model

| member | source | states |
|---|---|---|
| `Lifecycle.MovesByTarget` | crates/core/src/state.rs:40-71 | the legal moves, by where they lead: to Queued from Paused or Failed, to Starting from Queued, and so on |
| `Lifecycle.TerminalIsForGood` | crates/core/src/state.rs:40-71 | a legal history stops at Completed or Cancelled, and these are the only states without successors |
| `Lifecycle.RestartNeedsStop` | crates/core/src/state.rs:40-71 | between two starts of a download every legal history passes through Paused or Failed and then Queued |
| `Queues.Queue.Enqueue` | crates/download-manager/src/queue.rs:27-29 | the id goes to the back, nothing else moves |
| `Queues.Queue.Dequeue` | crates/download-manager/src/queue.rs:33-35 | the front id, if any, leaves and is returned |
| `Queues.Queue.Remove` | crates/download-manager/src/queue.rs:40-44 | every occurrence of the id goes, the rest keeps its order, and the answer tells whether it was there |
| `Queues.WithoutKeepsOrder` | crates/download-manager/src/queue.rs:40-44 | removing one id moves no other back and swaps no two others |
| `Scheduler.SelectForStart` | crates/download-manager/src/scheduler.rs:16-19 | a prefix of the queue that with the active ones stays within the limit, and is short only when the limit is reached |
| `Records.SaveLoadIsIdentity` | crates/download-manager/src/persistence.rs:111-126 | loading what was saved gives the same record exactly when its times are whole milliseconds in range and its counts fit a signed 64-bit column |
| `Records.SaveLoadIsNormalisation` | crates/download-manager/src/persistence.rs:236-284 | saving and loading is idempotent on all records, and keeps id, state and error |
| `Records.SysToMsMonotone` | crates/download-manager/src/persistence.rs:214-222 | stored times keep the order of times weakly, and strictly on whole milliseconds |
| `Records.SavedTimeIsCut` | crates/download-manager/src/persistence.rs:214-222 | a saved time reads back as the start of the millisecond it falls into, never later; before the epoch as the epoch, beyond the column as its end |
| `Records.SavedRecordReadsBack` | crates/download-manager/src/persistence.rs:111-126 | saving and loading cuts the four times of a record to the millisecond, loses a total beyond the column, stops a count beyond it at the largest, and changes nothing else |
| `Records.ColumnsHoldFields` | crates/download-manager/src/persistence.rs:111-126 | each column holds the field it is named after |
| `Records.ListingFollowsCreation` | crates/download-manager/src/persistence.rs:136-151 | the listing order is the creation order, up to records created within the same stored millisecond, which come by id |
| `Records.Store.Save` | crates/download-manager/src/persistence.rs:104-130 | the row is inserted or replaced when the call works, and nothing changes when it does not |
| `Records.Store.Connect` | crates/download-manager/src/persistence.rs:85-98 | connecting reads and changes no row, and may fail |
| `Records.Store.List` | crates/download-manager/src/persistence.rs:136-151 | when the call works, every row exactly once, read back, by creation time and then id; the table is left as it is |
| `Records.Store.Remove` | crates/download-manager/src/persistence.rs:157-165 | the row goes when the call works, and nothing changes when it does not |
| `Bandwidth.UnlimitedExactlyWhenShareIsZero` | crates/download-manager/src/bandwidth.rs:36-47 | under a cap a download runs without limiter exactly when more are active than bytes are allowed |
| `Bandwidth.LimiterIsShare` | crates/download-manager/src/bandwidth.rs:36-47 | there is no limiter exactly without a cap or with fewer bytes than active downloads; otherwise its rate is the whole quotient of the two |
| `Bandwidth.TokensStayInRange` | crates/download-manager/src/bandwidth.rs:79-92 | the balance never leaves [0, rate] |
| `Bandwidth.WindowBound` | crates/download-manager/src/bandwidth.rs:74-99 | any window of length t lets through at most rate + rate * t bytes, for any sequence of passes |
| `Bandwidth.CallIsItsPasses` | crates/download-manager/src/bandwidth.rs:79-98 | an acquire is its loop passes, only the last of which is granted, and it is still asleep only after using up its clock readings |
| `Bandwidth.OversizedNeverReturns` | crates/download-manager/src/bandwidth.rs:74-99 | a request above a non-zero rate is granted in no pass |
| `Bandwidth.ReturnsExactlyWhenItFits` | crates/download-manager/src/bandwidth.rs:74-99 | with sleeps that are honoured a request returns exactly when it is at most the rate, and then by its second pass |
| `Bandwidth.SleepIsLeast` | crates/download-manager/src/bandwidth.rs:93-97 | the sleep a refused pass asks for is the least after which the request is granted |
| `Bandwidth.TokenBucket.Acquire` | crates/download-manager/src/bandwidth.rs:74-99 | the loop in place makes exactly the passes of the model, keeps the balance they leave, and asks for the least sleep after each refusal |
| `Manager.DownloadManager.Open` | crates/download-manager/src/manager.rs:112-134 | a new object over the store is in the state the model's opening gives, or reports that connecting, listing or a save failed |
| `Manager.DownloadManager.Recover` | crates/download-manager/src/manager.rs:621-686 | the recovery loop in place is the recovery of the listing, stopping at a failed listing or the first failed save |
| `Manager.DownloadManager.TransitionState` | crates/download-manager/src/manager.rs:440-493 | the move in memory, then the save, then the event, with each early return |
| `Manager.DownloadManager.Schedule` | crates/download-manager/src/manager.rs:390-411 | the loop ends, and gives what starting the selected downloads one by one gives |
| `Manager.DownloadManager.BeginDownload` | crates/download-manager/src/manager.rs:413-438 | the claim, the event, the fresh signal and the spawned task |
| `Manager.DownloadManager.Enqueue` | crates/download-manager/src/manager.rs:141-176 | the call in place is the model's step, reply included |
| `Manager.DownloadManager.Start` | crates/download-manager/src/manager.rs:183-196 | the call in place is the model's step, reply included |
| `Manager.DownloadManager.Pause` | crates/download-manager/src/manager.rs:206-228 | the call in place is the model's step, reply included |
| `Manager.DownloadManager.Resume` | crates/download-manager/src/manager.rs:234-246 | the call in place is the model's step, reply included |
| `Manager.DownloadManager.Cancel` | crates/download-manager/src/manager.rs:257-293 | the call in place is the model's step, reply included |
| `Manager.DownloadManager.Retry` | crates/download-manager/src/manager.rs:299-310 | the call in place is the model's step, reply included |
| `Manager.DownloadManager.Remove` | crates/download-manager/src/manager.rs:317-333 | the call in place is the model's step, reply included |
| `Manager.DownloadManager.Shutdown` | crates/download-manager/src/manager.rs:365-373 | the call in place is the model's step |
| `TaskLives.ShutdownAborts` | crates/download-manager/src/manager.rs:365-373 | a shutdown aborts exactly the tasks that records hold handles on, takes every handle, and touches nothing else |
| `TaskLives.ShutdownReachesEveryTask` | crates/download-manager/src/manager.rs:365-373 | in every run, on any disk, right after a shutdown every task of a known download has been asked to abort, so it can vanish, and no record holds a handle |
| `TaskLives.AbortsAreHistory` | crates/download-manager/src/manager.rs:365-373 | in every run the tasks asked to abort are those that some shutdown found a handle on |
| `Manager.DownloadManager.OnProgress` | crates/download-manager/src/manager.rs:495-528 | the callback in place is the model's step |
| `Lives.ReportIsRecorded` | crates/download-manager/src/manager.rs:495-528 | a report sets count and update time, the total if it has one, and on the first report the state and a missing start time; the row encodes just that if the save works; no other record or row changes |
| `Lives.CountIsThatOfLastReport` | crates/download-manager/src/manager.rs:495-528 | in every run, on any disk, the byte count of a download that is not Completed is that of its last report, and its total the last one known |
| `Manager.DownloadManager.BeginTask` | crates/download-manager/src/manager.rs:530-578 | a task up to its backend is the model's step |
| `Manager.DownloadManager.EndTask` | crates/download-manager/src/manager.rs:580-619 | a task after its backend is the model's step |
| `Manager.DownloadManager.Step` | crates/download-manager/src/manager.rs:107-619 | every operation of the object keeps the invariant that failing saves cannot break |
| `SafeSteps.StepIsSafe` | crates/download-manager/src/manager.rs:141-619 | every step keeps, on any disk: queue without duplicates and only of Queued downloads, limit, task ownership, intents, and the rank of each limiter |
| `Outcomes.RecordAfterStep` | crates/download-manager/src/manager.rs:141-619 | every step, on any disk, in every field: a record is what the step's own move, report or answer makes of it, then Starting as of its clock reading if the step begins it, and otherwise as it was |
| `Outcomes.NewcomerAfterStep` | crates/download-manager/src/manager.rs:141-176 | an accepted enqueue records the request as asked for, with empty counts and the time of the call, and starts it if the agenda says so |
| `Outcomes.KnownAfterStep` | crates/download-manager/src/manager.rs:141-333 | exactly an accepted enqueue makes a download known, and exactly its removal forgets it |
| `Announcements.StepPublishes` | crates/download-manager/src/manager.rs:141-619 | every step, on any disk, publishes exactly its own events, and then the move and the start of each download it begins whose save works |
| `Announcements.StepAnswers` | crates/download-manager/src/manager.rs:141-333 | each call is refused exactly for an unregistered backend, an unknown id, a state that does not allow it, or its failed database call; start answers neither for a full limit nor for its save |
| `TaskLives.TaskAfterStep` | crates/download-manager/src/manager.rs:413-578 | every step, on any disk: an old task is gone exactly when the step is its end, changes only as it is handed over, and then carries the count of active downloads of that moment; new ones are just spawned |
| `TaskLives.RateIsShareAtBeginning` | crates/download-manager/src/manager.rs:548-551 | in every run the limiter of a task in its backend is a share of the cap among those active when it was handed over; without a cap no task has one |
| `Permits.StepContinues` | crates/download-manager/src/manager.rs:206-373 | every step gives and clears exactly these permits, aborts and pause intents, and brings back no old task or download |
| `Lives.RecordsFitTheirStates` | crates/download-manager/src/manager.rs:448-478 | in every run, on any disk, on a table whose rows do: a completion time exactly when Completed, an error text when Failed or Cancelled and none when Completed, a start time while Downloading |
| `Runs.LimitAndQueueSurviveFaults` | crates/download-manager/src/manager.rs:375-419 | in every run, however many saves fail, no id is queued twice, queued ids are Queued, and active downloads stay within the limit |
| `Runs.QueueHoldsExactlyTheQueued` | crates/download-manager/src/manager.rs:141-333 | with working saves, on a table of saved rows, the queue is exactly the Queued downloads, and every active download has a live or aborted task |
| `Runs.FailedSaveLosesTheQueueEntry` | crates/download-manager/src/manager.rs:234-246 | resume and retry report failure exactly when their save fails, and exactly then the download is Queued on no queue |
| `Faults.StepKeepsWaiting` | crates/download-manager/src/manager.rs:141-619 | every step, on any disk: a download that is on the queue whenever it is Queued stays so exactly when the step is not a resume or retry of it whose save fails |
| `Faults.LostStaysLost` | crates/download-manager/src/manager.rs:390-411 | a Queued download on no queue stays so until a start, cancel or remove names it |
| `Faults.QueuedWaitsUnlessAMoveFailed` | crates/download-manager/src/manager.rs:234-310 | in every run, on any disk, a Queued download is on the queue unless an earlier resume or retry of that very download failed to save |
| `Faults.TablesStayCanonical` | crates/download-manager/src/persistence.rs:111-126 | in every run, on any disk, and at every crash point, the table holds only rows that a save writes, so any process leaves a table the next one's results apply to |
| `StuckDownloads.StartGetsStuckExactlyWhenItsSaveFails` | crates/download-manager/src/manager.rs:413-419 | an accepted start with room makes the download Starting, and leaves it without a task exactly when its save fails |
| `Agendas.BeginsWhatBecomesActive` | crates/download-manager/src/manager.rs:390-419 | every step, on any disk, makes exactly those downloads active that its agenda, known before the step, selects |
| `StuckDownloads.ScheduleSpawns` | crates/download-manager/src/manager.rs:390-419 | scheduling leaves active without a task, besides those that were, exactly those of its selection whose save fails |
| `StuckDownloads.StuckAfterStep` | crates/download-manager/src/manager.rs:141-619 | after any step, on any disk, the active downloads without a task are exactly those before that it did not remove, those it began whose save failed, and the one whose aborted task ended |
| `StuckDownloads.StuckUntilRemoved` | crates/download-manager/src/manager.rs:413-419 | in every run, on any disk, an active download without a task stays so, whatever is asked of it, until it is removed |
| `StuckDownloads.StuckExactlyWhen` | crates/download-manager/src/manager.rs:365-419 | in every run, on any disk, an active download has no task exactly when some step began it and could not save that, or ended its aborted task, and no later step removed it |
| `Agreement.AgreesAfterStep` | crates/download-manager/src/manager.rs:440-517 | every step, on any disk: a row that says what memory says goes on doing so exactly when neither the write of the step's own change of that download nor the save of its start fails |
| `Agreement.RowsDifferOnlyByFailedWrites` | crates/download-manager/src/manager.rs:440-517 | in every run on a table of saved rows, on any disk, a row differs from memory only after a step that changed that very download and could not write it |
| `Runs.DatabaseMirrorsMemory` | crates/download-manager/src/manager.rs:440-517 | with working saves, on a table of saved rows: after every step of every run the table is the encoding of the records in memory |
| `Runs.CrashThenOpen` | crates/download-manager/src/manager.rs:440-493 | with working saves, on a table of saved rows: a crash at any moment inside any operation, followed by an opening, gives every download but at most one as memory had it, settled by policy; that one is the same request, at most one legal move behind |
| `Crashes.CrashLosesAtMostTheStep` | crates/download-manager/src/manager.rs:440-493 | with working saves, on a table of saved rows: after a crash inside any operation every record the next process has is, whole, what memory held for it before the operation or at an earlier moment of it, settled by policy; only a download just saved for the first time is a moment ahead |
| `Crashes.StepIsTraced` | crates/download-manager/src/manager.rs:141-619 | on any disk, at every moment of every step, each row is the encoding of a record that memory held before or during that step |
| `Crashes.RunIsTraced` | crates/download-manager/src/manager.rs:141-619 | in every run, on any disk, at every moment, each row is one the run began with or the encoding of a record that memory held since |
| `CrashPoints.EveryMomentIsRecorded` | crates/download-manager/src/manager.rs:440-517 | every step, on any disk: between two of the moments at which a crash is considered at most one record or one row changes, so there are no others |
| `Runs.CrashBetweenSteps` | crates/download-manager/src/manager.rs:621-686 | with working saves, on a table of saved rows: a crash between operations loses no download |
| `Runs.InterruptedOpenIsHarmless` | crates/download-manager/src/manager.rs:621-686 | an opening cut short at any call, then a full one, give the same records up to their update times, and the same queue, as an undisturbed opening |
| `Runs.EventLogReplays` | crates/download-manager/src/manager.rs:166-174 | with working saves, on a table of saved rows: folding the Queued and StateChanged events over the opening states only meets legal moves from the replayed state, and gives every known download's present state |
| `Recovery.OpenRecovers` | crates/download-manager/src/manager.rs:621-686 | on any table: opening makes every row a record, as persisted or settled by policy, leaves none active, and queues exactly the Queued ids in listing order; cut short, it leaves each row as it was or settled |
| `Lives.OpeningStamps` | crates/download-manager/src/manager.rs:621-650 | a finished opening has given every download found in flight an update time that is a clock reading of its own |
| `Recovery.OrderIsUnique` | crates/download-manager/src/persistence.rs:142-142 | the listing order of a set of ids is unique |
| `ConsistentSteps.StepIsConsistent` | crates/download-manager/src/manager.rs:141-619 | with working saves every step keeps memory, queue, table and event log in agreement, and inside the step the table is off by at most one record |
| `Scheduling.ScheduleRefinesSelector` | crates/download-manager/src/manager.rs:390-411 | choosing one download at a time, counting anew each time, starts exactly the selector's first choice, in order |
| `Scheduling.ScheduleEffect` | crates/download-manager/src/manager.rs:390-438 | the selected downloads become Starting, keep the rest of their record, and count; all others and the rest of the queue stay as they were |
| `Scheduling.ScheduleAnnouncesSelection` | crates/download-manager/src/manager.rs:413-420 | with working saves the Started events of one scheduling are the selection, in order |
| `Scheduling.ScheduleConservesWork` | crates/download-manager/src/manager.rs:390-411 | scheduling ends with an empty queue or a full limit, from any state and on any disk |
| `Fairness.SchedulingStepsConserveWork` | crates/download-manager/src/manager.rs:390-411 | after every operation that schedules, the queue is empty or the limit reached |
| `Fairness.WorkConservationIsKept` | crates/download-manager/src/manager.rs:257-333 | every step keeps that exactly when it is not the removal of an active download, with others waiting, whose delete fails |
| `Fairness.RemovalStalls` | crates/download-manager/src/manager.rs:317-333 | a removal leaves work waiting exactly when its delete fails, it freed a place, and the queue is not empty |
| `Fairness.NoWorkWaitsOnceScheduled` | crates/download-manager/src/manager.rs:390-411 | on any disk, from the first scheduling on and until a removal stalls, no work that could run ever waits |
| `Fairness.OpenLeavesQueueWaiting` | crates/download-manager/src/manager.rs:112-134 | opening leaves work waiting exactly when the limit is not zero and some row recovers as Queued |
| `Fairness.StartDoesNotSchedule` | crates/download-manager/src/manager.rs:183-196 | an explicit start leaves work waiting unless it took the last queued download or the last place |
| `Fairness.NoOvertaking` | crates/download-manager/src/manager.rs:390-411 | in any run two downloads that stay queued keep their order and never move back |
| `Fairness.LaterLeavesAfterEarlier` | crates/download-manager/src/manager.rs:183-196 | the later of two queued downloads leaves before the earlier only when start, cancel or remove names it |
| `Starvation.FreesPlaceExactlyWhen` | crates/download-manager/src/manager.rs:317-333 | a step frees a place and reaches the scheduler exactly when it ends an attempt of a known download, removes an active one whose row it can delete, or finds no backend |
| `Starvation.WaitsAtMostItsPosition` | crates/download-manager/src/manager.rs:390-411 | in every run, on any disk, a download that stays queued sees at most as many freed places as were queued before it |
| `Starvation.EveryTurnComes` | crates/download-manager/src/manager.rs:390-411 | a queued download that no start, cancel or remove names has been started once more places were freed than were queued before it |
| `Attempts.PauseAttribution` | crates/download-manager/src/manager.rs:580-616 | a cancelled backend result becomes Paused exactly when pause succeeded during that same attempt, else Cancelled; success becomes Completed with the backend's byte count, another error Failed with its text |
| `Attempts.PendingIntentMeansRunning` | crates/download-manager/src/manager.rs:580-616 | in every run a pending pause intent of a known download with a registered backend means it is active or completed |
| `Attempts.SettleDecides` | crates/download-manager/src/manager.rs:580-616 | on any disk the end of a live attempt leaves state, counts, metadata, completion time, error text and intent as its outcome says |
| `Attempts.AttemptStartsClean` | crates/download-manager/src/manager.rs:206-228 | an attempt that a step has just spawned for a registered backend carries no pause intent |
| `Attempts.MissingBackendKeepsIntent` | crates/download-manager/src/manager.rs:568-578 | an attempt without backend fails its download and leaves its intent behind |
| `Permits.PermitsOfKnown` | crates/download-manager/src/manager.rs:206-271 | in every run an attempt of a known download has a cancellation permit exactly when a pause or a cancel reached it |
| `Permits.CancellationAttribution` | crates/download-manager/src/manager.rs:580-616 | with a backend that stops only when given a permit, an attempt leaves its download Cancelled exactly when it stopped, an earlier cancel reached this very attempt, and no pause did |
| `SharedBandwidth.AggregateBandwidth` | crates/download-manager/src/manager.rs:548-551 | in every run the rates of the n limiters held for known downloads add up to at most cap/1 + ... + cap/n, and all have one when the cap is at least the limit |
| `SharedBandwidth.BytesInWindow` | crates/download-manager/src/bandwidth.rs:36-99 | the limiters held at one moment together let through at most that sum times (1 + w) bytes in any window of w seconds |
| `SharedBandwidth.BytesInStretch` | crates/download-manager/src/bandwidth.rs:36-99 | over any stretch of a run, the limiters held at its start and the m handed out during it, over by then or not, together let through at most (that sum + m * cap) * (1 + w) bytes in any window of w seconds |
| `SharedBandwidth.AllowanceIsProduct` | crates/download-manager/src/bandwidth.rs:74-99 | the allowance in these bounds is the rate times (1 + w) |
| `CapLimits.BoundIsReached` | crates/download-manager/src/bandwidth.rs:36-47 | starting n downloads one after the other is a run at whose end the rates add up to cap/1 + ... + cap/n |
| `CapLimits.CapIsKeptExactlyWhen` | crates/download-manager/src/bandwidth.rs:11-12 | the rates stay within the cap in every run exactly when at most one download may run at a time or the cap is at most one byte |
| `CapLimits.WithinCapWhenAllSawAll` | crates/download-manager/src/bandwidth.rs:36-47 | the rates stay within the cap when every attempt, at its start, saw at least as many active as now hold limiters |
| `Histories.RequestsNeverChange` | crates/download-manager/src/manager.rs:440-528 | in every run a download keeps its id, URL, destination, backend, overwrite flag, creation time and first start time while it is known |
| `Histories.OpenAnnounces` | crates/download-manager/src/manager.rs:652-664 | a finished opening has announced exactly the downloads found in flight, oldest first |
| `Effects.OthersAreLeftAlone` | crates/download-manager/src/manager.rs:141-619 | a step changes no record but that of the download it names, except that the scheduler may start queued ones |
| `Effects.EnqueueEffect` | crates/download-manager/src/manager.rs:141-176 | enqueue succeeds exactly with a registered backend and a working save, records what was asked, and the newcomer waits exactly when the queue before it uses up the free places |
| `Effects.StartEffect` | crates/download-manager/src/manager.rs:183-196 | start is accepted exactly for Queued downloads, makes the download Starting exactly when there is room, and then spawns no task exactly when the save fails |
| `Effects.RemoveEffect` | crates/download-manager/src/manager.rs:317-333 | remove forgets the download at once and gives its attempt's signal a permit; it succeeds exactly when the delete does, and then the row is gone |
| `Interleaving.NextIsSound` | crates/download-manager/src/manager.rs:413-478 | every critical section, by any thread at any time, keeps histories legal and each download's live attempt unique |
| `Interleaving.LegalHistoriesAndSingleRunner` | crates/download-manager/src/manager.rs:530-619 | under every interleaving each download's states form a legal walk and at most one task per download is inside its backend |
| `Interleaving.TerminalIsNeverLeft` | crates/download-manager/src/manager.rs:445-478 | under every interleaving Completed and Cancelled are never left |
| `Interleaving.OnlyTheTaskStops` | crates/download-manager/src/manager.rs:580-616 | only a download's own task, at its end, writes Paused or Failed, and then nobody runs it |
| `Interleaving.FinalWriteTakesEffect` | crates/download-manager/src/manager.rs:580-616 | a task's final write takes effect exactly when its download was neither cancelled nor removed meanwhile |
| `Refinement.StepIsInterleaved` | crates/download-manager/src/manager.rs:141-619 | every step of the manager, on any disk, is a sequence of these sections that ends in the same states, with one live attempt for each task |
| `Refinement.RunIsInterleaved` | crates/download-manager/src/manager.rs:141-619 | every run of the manager is an interleaving, so what holds under every interleaving holds of it |
| `Storage.PartPathIsElsewhere` | crates/storage/src/storage.rs:104-112 | for every destination, also one without a file name, the partial file is never the destination, and different tags give different partial files |
| `Storage.PartPathIsBeside` | crates/storage/src/storage.rs:104-112 | the partial file lies in the directory of the destination, under its name hidden and tagged, or under a general one |
| `Storage.PartFile.WriteChunk` | crates/storage/src/storage.rs:43-50 | disk and buffer together gain the chunk; even a failed write leaves a prefix on disk |
| `Storage.PartFile.Flush` | crates/storage/src/storage.rs:56-67 | on success all that was written is on disk |
| `Storage.PartFile.Close` | crates/storage/src/storage.rs:74-81 | closing changes no file, so what is only buffered is lost |
| `Storage.CreatePartFile` | crates/storage/src/storage.rs:100-130 | a new empty partial file, or no change at all when a call fails or the name is taken |
| `Storage.Finalize` | crates/storage/src/storage.rs:142-163 | what is on disk takes the final name in one step, or nothing changes; an existing file is refused unless overwriting or the look failed |
| `Storage.RemovePart` | crates/storage/src/storage.rs:170-179 | succeeds exactly when the file is gone afterwards |
| `Engine.Download` | crates/download-engine/src/engine.rs:68-178 | all or nothing: on success the destination is exactly the received bytes, as many as announced, no partial file, no other path touched; otherwise, and while the limiter keeps it waiting, the destination is unchanged and a partial file holds a prefix; it replaces a file unasked only if both looks for it failed |
| `Engine.Receive` | crates/download-engine/src/engine.rs:91-126 | the loop passes each non-empty chunk through the limiter and writes it once, in order, until the body ends, the signal is seen, something fails, or the limiter does not let it go on, which happens exactly at a chunk above the rate; the reports made are those due |
| `Body.WholeExactlyWhen` | crates/download-engine/src/engine.rs:91-104 | a body is taken whole exactly when no look sees the signal, no item is an error and no chunk exceeds the rate |
| `Body.CancelledExactlyWhen` | crates/download-engine/src/engine.rs:91-104 | a transfer is cancelled exactly when some look sees the signal, and every item before is a chunk that the limiter lets through, with no signal seen |
| `Body.LostExactlyWhen` | crates/download-engine/src/engine.rs:91-105 | it breaks off with an error of the connection exactly at the first such item, if nothing came before |
| `Body.EndsExactlyWhenNothingIsOversized` | crates/download-engine/src/engine.rs:91-112 | a limited transfer ends exactly when no chunk before the end of the unlimited one exceeds the rate, and then it ends alike |
| `Body.AsleepExactlyWhen` | crates/download-engine/src/engine.rs:107-112 | a transfer falls asleep at its first chunk above the rate, if no signal or error came before |
| `Body.SignalComesTooLate` | crates/download-engine/src/engine.rs:91-112 | no signal given after that is ever seen |
| `Body.ReportsAreSparse` | crates/download-engine/src/engine.rs:115-125 | n progress reports take at least n times 250 ms, and their counts never fall nor pass what was received |
| `Body.NoReportIsOverdue` | crates/download-engine/src/engine.rs:115-125 | whenever the clock was last read, the last report or the start was less than 250 ms old |
| `Body.ReportsTellTheCount` | crates/download-engine/src/engine.rs:115-125 | a report is made only right after a chunk was written, and tells the bytes received up to it and the announced total |
| `Engine.SucceedsExactlyWhen` | crates/download-engine/src/engine.rs:76-144 | on a filesystem that works, with sleeps that are honoured, a transfer succeeds exactly when request, response, body, length, signal and limiter give no objection |
| `Engine.HinderedBySituation` | crates/download-engine/src/engine.rs:76-87 | before a body, if the filesystem never fails: an existing file, then the response's own error, then a taken partial name each stop a transfer with their own error |
| `Engine.OutcomeBySituation` | crates/download-engine/src/engine.rs:91-144 | with a body, if the filesystem never fails: what comes first of a seen signal, a lost item, a chunk above the rate, or the end decides the outcome, and at the end whether the announced length was received |
| `Engine.RefusedRequests` | crates/download-engine/src/engine.rs:196-206 | which error a request is refused with: scheme, then destination, then redirects |
| `Engine.ValidateRequest` | crates/download-engine/src/engine.rs:196-206 | accepts exactly http and https, an acceptable destination and a positive redirect limit, and tells a bad path from a bad file name |
| `HttpBackend.Run` | crates/download-engine/src/backend.rs:22-43 | one attempt, on any filesystem: a seen signal, and nothing else, is told as a stop, any other error in its own words, a success with the size of the destination; a success changes no other file, and anything else no existing one; on a filesystem that works, with nothing in the way, it is stopped exactly when some look sees the signal and nothing came before |
| `HttpBackend.SeenSignalDecides` | crates/download-manager/src/manager.rs:580-616 | in every run, when the loop of an attempt left at a seen signal, its download ends Paused if a pause reached that attempt and Cancelled if none did; else it ends Completed or Failed, with that error's text |
| `HttpBackend.CompletedMeansDelivered` | crates/download-manager/src/manager.rs:530-616 | in every run, when an attempt of a known download ends, the download is Completed exactly when its transfer delivered, and then the destination in its record holds as many bytes as the record says; otherwise no existing file was touched |
| `FileNames.ValidateFilename` | crates/storage/src/path.rs:174-215 | accepts exactly non-empty names of at most 255 bytes without control characters and separators, and names the first objection in the source's order |
| `FileNames.NameObjections` | crates/storage/src/path.rs:174-215 | which objection a name meets first, for each of them |
| `FileNames.WidthIsThatOfUtf8` | crates/storage/src/path.rs:181-186 | the bytes of a name are counted as UTF-8 has them: each character's width is told by the first byte of its encoding, from which it comes back |
| `FileNames.ValidateOutputPath` | crates/storage/src/path.rs:116-166 | accepts exactly a destination without parent components and control bytes that ends in a valid, unreserved name, and reports the first objection in the source's order |
| `FileNames.PathObjections` | crates/storage/src/path.rs:116-166 | which objection a destination meets first: a NUL anywhere, then the first component that climbs or has a control byte, then the final name |
| `FileNames.ReservedAreListed` | crates/storage/src/path.rs:274-302 | the reserved stems are four devices and nine each of two kinds of port |
| `FileNames.StemIsCapital` | crates/storage/src/path.rs:274-276 | the stem is the name before its first dot, in capitals |
| `FileNames.SanitizeFilename` | crates/storage/src/path.rs:220-252 | the loop computes the sanitised name |
| `FileNames.UnsafeIsListed` | crates/storage/src/path.rs:223-233 | the characters replaced are the control characters and nine listed ones, no others |
| `FileNames.SanitisedIsClean` | crates/storage/src/path.rs:220-252 | every result is non-empty, free of forbidden characters, and ends in neither dot nor space |
| `FileNames.PassesExactlyWhenShort` | crates/storage/src/path.rs:217-252 | the result passes the name check exactly when the trimmed name has at most 255 bytes |
| `FileNames.SafetyPromiseFails` | crates/storage/src/path.rs:217-218 | a name of 256 letters gives a result that the check refuses |
| `FileNames.IdempotentExactlyWhenShort` | crates/storage/src/path.rs:220-252 | sanitising twice equals sanitising once exactly under the same bound |
| `FileNames.FixedPoints` | crates/storage/src/path.rs:220-252 | exactly the clean names of at most 255 bytes are left alone |
| `PercentDecode.HexDigits` | crates/http-client/src/inspect.rs:148-155 | a byte has value v exactly when it is the v-th hexadecimal digit in one of the two cases |
| `PercentDecode.Run` | crates/http-client/src/inspect.rs:130-146 | the loop computes the decoding |
| `PercentDecode.DecodeInvertsEveryEncoding` | crates/http-client/src/inspect.rs:130-155 | decoding undoes every encoding that writes each byte as itself or as '%' and two digits of either case |
| `PercentDecode.RoundTrip` | crates/http-client/src/inspect.rs:130-155 | every byte string survives being encoded, escaping any bytes asked for, and decoded |
| `PercentDecode.DecodeShrinks` | crates/http-client/src/inspect.rs:130-146 | decoding never lengthens, shortens at most to a third, and shortens exactly when there is a valid escape |
| `PercentDecode.UnchangedWithoutEscapes` | crates/http-client/src/inspect.rs:130-146 | text is left as it is exactly when it has no valid escape |

## Left out

- HTTP itself: the client, TLS, redirects, header extraction and Content-Disposition splitting; a response is a refusal or any finite sequence of chunks and one error.
- SQLite, SQL text, migrations and the parsing of URL, JSON, UUID, state and backend columns: a table is a map from id to row, and these values are taken to round-trip. A row that fails to parse is a listing that fails.
- Destinations that are not valid text, which the lossy conversion before a save would change.
- The tokio runtime: tasks are steps that happen in any order, a `Notify` is one permit, and the broadcast channel is an unbounded log, so lagging receivers are not modelled.
- Floating point: the bucket computes on exact reals; average speed and percentages are not modelled.
- Several callers of one bucket at once: the manager builds one limiter per run, and its caller is sequential.
- The concurrency limit and the agreement with the table between critical sections: counting and claiming are not one critical section, so both are proved for whole operations only.
- Downloads the manager has removed while their task still runs: they count neither as active nor towards the shared bandwidth.
- Other processes that change files during a transfer, the creation of parent directories beyond its failing, durability below the disk, and the private buffer of the runtime's file type, which is counted with the writer's buffer.
- The moments of a transfer among the manager's steps: its answer is tied to the step that ends its attempt, its reports and its looks at the signal are not tied to single progress steps and permits.
- The splitting of a path into components, Windows-only checks, and the validator for untrusted relative paths.
- `get`, `list`, `subscribe`, text forms of enumerations, logging, the command line and its exit codes: reads and one-branch facts.
- UTF-8 conversion after percent decoding: the model stops at the bytes.
