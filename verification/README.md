# xlurm: a verified model of the scheduler

xlurm schedules jobs on the accelerators of one host. A single daemon keeps the queue in memory and in `state.json`,
starts a worker process for every job, and may be stopped, killed and restarted at any moment while the workers run
on. What it promises, that no device is used by the workers of two jobs, that a job is never run twice, that no
result, ID or log is lost, has to hold across all of that, and rests on the order of a few durable effects spread over
four files: persist, lock, spawn, report, unlock.

The model has three layers.

1. **Pure decisions.** `Model.dfy` (the data), `Allocator.dfy` (which devices a request gets), `Admission.dfy` (which
   requests are accepted) and `Planner.dfy` (the start loop of a tick as a function, `Greedy`, with the stable sort
   in front of it). Their results are described independently of how they are computed.
2. **The whole system as a step machine.** `Machine.dfy` has one step for every durable effect: each save with its
   three outcomes (done; failed with the old contents; failed with the new contents already renamed in), the lock,
   the job file, the spawn, every file deletion, what workers do, and a crash at any point. `Invariants.dfy` states
   the invariant, `Preservation.dfy` proves that every step keeps it, `Guarantees.dfy` and the files after it derive
   what holds in every reachable world and over every run, and what can happen in some run of the program.
3. **The program.** `Platform.dfy` is the state directory and the worker processes; every call to the operating system
   can fail at any of its points, as an arbitrary schedule of faults decides, and workers act between calls.
   `Scheduler.dfy` is the scheduler class with the program's loops and early exits. A ghost trace records each effect
   as a step of the machine, and `Valid()` says that memory and the directory are exactly what that recorded run has
   made of them, so a method that skipped, added or reordered an effect would not verify. `Effect.dfy` opens the steps
   one by one for these proofs, `Store.dfy` relates the job list to the machine's map. `Daemon.dfy` is the start-up
   order of the daemon and the restart check, `Drain.dfy` submissions, ticks and what comes between them, `Clean.dfy`
   the offline clean, `Inventory.dfy` device discovery and monitoring, `Executor.dfy` the worker's watch over the
   command, `Follow.dfy` the client that follows a log while the machine runs on, and `Framing.dfy` the message
   framing on the socket.

A worker gives up its job's lock before its process exits, and a worker that is killed gives it up at once. The machine
keeps three things apart: live workers, which hold their locks; exiting ones, which may still have an error to print to
the job's log (a daemon waits for the exit of the workers it has spawned itself, but not of those it has adopted); and
what a killed worker leaves behind of its command, since only the command's first process dies with it
(`src/executor.rs:200`). Nothing waits for those, and they keep the log open and the devices in use.

Five places where the code does less than its documentation or its purpose suggests are stated exactly, each with the
condition under which the promise holds, for all worlds or inputs, and with a run in which it does not.

- **Cancellation** (`Cancellation.dfy`). `cancel` answers Ok for any job that is not pending or running
  (`src/scheduler.rs:238`). If the save of a first cancellation fails with the old contents, memory says cancelled and
  the file says pending; a repeated cancel then answers Ok without saving, and after a crash the job is pending again
  and runs. `CancelIsFinalExactlyWhenDurable` shows that this state, which can be told before the call, is the only
  exception, and that from it the program can come to start the job, whatever it requested and whatever else is queued
  or running; `OkCancelledJobCanStart` is such a run.
- **Refused submissions** (`Unsaved.dfy`). A submission answered with an error can run all the same, exactly if its
  save failed after the rename: the file holds the job until the next save, and a daemon that starts before that runs
  it.
- **The running limit** (`Limit.dfy`). "At most `--max-running` jobs run at once" does not hold for jobs adopted from a
  daemon with a higher limit. After a tick the limit is respected exactly if it was after its polls; the bound
  otherwise is the number still running then.
- **Complete logs in the foreground** (`Log.dfy`, `Follow.dfy`). What `follow` has printed when it returns an exit code
  is the whole log for ever exactly if the job was not cancelled in memory only, no failed worker process of it is
  still exiting, and no killed worker of it has left processes behind that have the log open. The second can only be
  seen for an adopted worker, the third for any. There is a run for each of the three cases. The offline clean can
  delete a log that would still have grown, in the last two cases only.
- **Exclusive devices** (`Guarantees.dfy`, `Sharing.dfy`). No two live workers ever hold the same device, and over every
  run in which no worker is killed in the middle of its command no device is used by processes of two jobs. Processes
  that a killed worker leaves behind keep using its devices, while the daemon hands them out again as soon as
  monitoring reports them idle: `SharedExactlyIfKept` shows that a device can come to be used by processes of two jobs
  exactly if such processes use it.

The machine leaves open in which order a tick polls and grants, how many jobs it grants, and what is admitted, so its
runs include those of the program and more. What is said about every run and every reachable world is proved of the
machine. What is said to be possible, that a job can be started, a log can grow or a device can be shared, is proved of
the program: `Schedule.dfy` adds the program's choices (`Follows`), shows that they are those of the start loop in
`Planner.dfy` and leave exactly one way to go on, and `Restart.dfy` builds the runs, for every limit on running jobs:
the lock holder stops, the workers end, the next daemon polls what was running and starts the first job of the start
order that it can serve, round after round until the job in question is that first one.

## Model

| member | source | states |
|---|---|---|
| Model.KeyTextIsInjective | src/model.rs:31-58 | two devices have the same key text exactly when they have the same vendor and visible name, so the pair can stand for the text |
| Model.SameKeyMeaning | src/model.rs:50-58 | two devices are the same to the scheduler exactly if vendor and visible name agree, whatever their IDs and board names |
| Allocator.FindDeviceMeaning | src/scheduler.rs:365-369 | the search for an ID gives the first device of the vendor carrying it, and nothing exactly when there is none |
| Allocator.MatchingFromMeaning | src/scheduler.rs:398-412 | the matching vendors are exactly those not ruled out that have every requested ID, without repeats, the first in priority order first |
| Allocator.AutomaticVendor | src/scheduler.rs:374-395 | without exact IDs: the first of NVIDIA, Ascend, Moore Threads, MetaX, PPU and Hygon that the request allows and that has `count` devices neither reserved nor excluded by the request gives the first of them in inventory order; nothing is given exactly if there is no such vendor |
| Allocator.ExactVendor | src/scheduler.rs:360-373 | with exact IDs: the first vendor in that order that is allowed and has all of them gives its first device with each ID, in request order; nothing is given exactly if there is none or one of the devices is reserved |
| Allocator.AllocateAntitone | src/scheduler.rs:355-396 | reserving more devices never makes a refused request succeed |
| Allocator.AllocateGrants | src/scheduler.rs:355-396 | a grant has the requested length, one vendor, no key twice, no reserved and no self-excluded device |
| Admissions.AdmitsExactly | src/scheduler.rs:136-185 | submit accepts exactly the requests without a fault and refuses the others for the first fault, each fault said in terms of the request and the inventory: nothing to run, no directory, a limit of zero, repeated exclusions; with exact IDs none, a wrong number, repeats, exclusions beside them, no vendor with all of them, several, or a disabled device with one of them; otherwise no allowed vendor with enough enabled devices |
| Admissions.ExactRequestsAreServed | src/scheduler.rs:148-185 | an exact request that passes the ID checks always passes the final allocation check |
| Admissions.AdmittedIsServable | src/scheduler.rs:171-185 | what is admitted differs from the request at most in the vendor, which for exact IDs is the only one that has them all, and could be served at once by the enabled devices |
| Planner.SortIsStable | src/scheduler.rs:291 | sorting by descending count keeps submission order among equals |
| Planner.StartOrderIsExact | src/scheduler.rs:283-291 | the start order lists exactly the pending jobs, each once, larger requests first, then earlier ones |
| Planner.OrderIsUnique | src/scheduler.rs:283-291 | no other list of the pending jobs satisfies that order |
| Planner.WorkConserving | src/scheduler.rs:292-316 | the start loop ends at the limit, or no job it leaves pending could be given devices out of what is left at the end |
| Planner.GrantsAreFresh | src/scheduler.rs:296-316 | everything granted was free when the loop began, and the reserved set grows by exactly what was granted |
| Planner.GrantsAreSound | src/scheduler.rs:292-316 | every started job gets inventory devices that were not reserved, as many as it asked for and none it excluded, and its record says running from now on with everything else as it was; started jobs share no key; a failed start holds what it was granted and records failure, code 1, the time and the message |
| Planner.NoDelay | src/scheduler.rs:292-316 | a job examined and left pending could not be served even if every device given to the jobs behind it were handed back; jobs not examined are a suffix of the order and untouched |
| Planner.CapHolds | src/scheduler.rs:277-316 | the local counter is the number of running jobs and never passes the limit unless it began above it |
| Planner.TickConservesWork | src/scheduler.rs:257-317 | work conservation and the bound on running jobs for a whole tick, against the reserved set after it; the limit is respected after the tick exactly if it was after the polls |
| Planner.TickGrantsFreeDevices | src/scheduler.rs:257-316 | a tick changes pending jobs only; each started one gets devices that are enabled, idle, unheld and not self-excluded, and no two share one |
| Planner.TickDelaysNobody | src/scheduler.rs:283-316 | backfilling never delays a larger or earlier request in the same tick |
| Planner.ProgressWhenIdle | src/scheduler.rs:181-185 | with nothing running and no more withheld than at admission, the start loop moves a pending job on |
| Planner.TickMakesProgress | src/scheduler.rs:257-317 | when all enabled devices are idle and the present exclusions are covered by those at admission, a successful tick moves a pending job on |
| Planner.Drains | src/scheduler.rs:243-318 | n admitted pending jobs drain in n rounds of finishing and ticking, whatever the results, the failing starts and the part of the exclusions still in force; the pending count is the measure |
| Stores.RetainedIsOrdered | src/scheduler.rs:121-130 | a clean-up keeps exactly the other jobs, in their order |
| Stores.IndexRetained | src/scheduler.rs:121-130 | dropping jobs from the list is dropping their IDs from the map |
| Stores.ExpiredIsOutdated | src/scheduler.rs:80-93 | what a clean-up keeps is every job but those that ended, in any of the four ways, at least 604800 seconds ago |
| Stores.HeldKeysAreHeld | src/scheduler.rs:257-263 | the keys collected from the running jobs of the list are those of the running jobs of the map |
| Preservation.StepKeeps | src/scheduler.rs:80-318 | every step of the machine, with every outcome of every save, keeps the invariant |
| Preservation.RunKeeps | src/scheduler.rs:80-318 | so does every run |
| Preservation.ReachableIsOk | src/scheduler.rs:80-318 | the invariant holds in every reachable world |
| Preservation.BootKeeps | src/scheduler.rs:22-43 | a scheduler that starts on any state file a run can leave, with any inventory, finds the invariant |
| Preservation.SubmitSavedKeeps | src/scheduler.rs:186-207 | a saved submission keeps it |
| Preservation.SubmitUnsavedKeeps | src/scheduler.rs:203-206 | so does one whose save failed, before or after the rename, with the counter kept and the job popped |
| Preservation.CancelSavedKeeps | src/scheduler.rs:227-236 | a saved cancellation keeps it |
| Preservation.CancelUnsavedKeeps | src/scheduler.rs:227-236 | so does one whose save failed, with memory cancelled all the same |
| Preservation.PollDoneKeeps | src/scheduler.rs:245-253 | taking over a finished worker's outcome keeps it |
| Preservation.GrantKeeps | src/scheduler.rs:297-303 | giving a pending job devices outside the reserved set keeps it |
| Preservation.PersistKeeps | src/scheduler.rs:304-306 | saving the intent to start keeps it |
| Preservation.SpawnKeeps | src/executor.rs:46-68 | spawning the worker, after intent, lock and job file, keeps it |
| Preservation.StartFailsKeeps | src/scheduler.rs:308-310 | a start that fails at any point, leaving any file behind, keeps it |
| Preservation.RemoveKeeps | src/scheduler.rs:113-119 | deleting one file of an expired job keeps it |
| Preservation.EndCleanupKeeps | src/scheduler.rs:121-133 | forgetting the expired jobs, or failing to, keeps it |
| Preservation.WorkerReportsKeeps | src/executor.rs:124-125 | a worker writing its result keeps it |
| Preservation.WorkerReleasesKeeps | src/executor.rs:108-126 | a worker giving up its lock, with or without a result and with or without an error still to print, keeps it |
| Preservation.WorkerDiesKeeps | src/executor.rs:85-92 | so does a worker that is killed and leaves processes of its command behind |
| Preservation.AppendLogKeeps | src/lib.rs:45-52 | what a live worker, one that is exiting, or the processes left behind by a killed one write to the log keeps it |
| Guarantees.DevicesAreExclusive | src/scheduler.rs:243-318 | in every reachable world no two live workers hold devices of the same vendor and visible name |
| Guarantees.WorkersAreKnown | src/scheduler.rs:304-308 | a live worker's job is running in the state file, with the worker's devices, and in the memory of any live daemon that has not failed |
| Guarantees.AtMostOneWorker | src/scheduler.rs:304-308 | over any run with any crashes and restarts, at most one worker is spawned for a job |
| Guarantees.ResultsAreExact | src/executor.rs:71-92 | a finished job that was started carries the result its own worker wrote, else a failure; no such record exists while the worker is live |
| Guarantees.PollDeliversTheReport | src/executor.rs:85-92 | as long as the file says running, a poll delivers the written result, so a crash between a poll and its save loses nothing |
| Guarantees.ReportsArePermanent | src/executor.rs:124-125 | a written result is never replaced in any continuation |
| Guarantees.AcknowledgedIdsAreUnique | src/scheduler.rs:186-207 | acknowledged IDs increase strictly over the whole run, are bounded by the durable counter and stay in the file until their jobs finish |
| Guarantees.CountersBoundIds | src/scheduler.rs:186-207 | the durable counter bounds every ID ever durable, memory's bounds every ID in memory and is never behind |
| Guarantees.DurableCounterNeverDecreases | src/scheduler.rs:121-133 | over any run the durable counter never decreases |
| Guarantees.FilesHaveOwners | src/scheduler.rs:97-120 | at every crash point every job file belongs to a started job of the state file, so a started job is forgotten only when its files are gone |
| Guarantees.DeletionsAreJustified | src/scheduler.rs:80-119 | a file disappears only through the clean-up of a terminal job without a worker that ended at least 604800 seconds before, or as a log in an offline clean without any worker |
| Guarantees.CleanerIsAlone | src/cli.rs:286-304 | once the offline clean has passed its check no worker is live |
| Guarantees.OfflineCleanIsSafe | src/cli.rs:286-327 | each deletion of the offline clean happens without live workers and touches nothing but that log |
| Guarantees.RecordsAdvance | src/scheduler.rs:219-316 | each step moves a job's last durable record by at most one move of the life cycle and forgets none |
| Guarantees.RecordsDescend | src/scheduler.rs:219-316 | over any run a terminal record is final and a running one keeps its devices and start time |
| Guarantees.MemoryAdvances | src/scheduler.rs:219-316 | while one scheduler lives its own records move in the same way |
| Guarantees.RecordsAreWellFormed | src/scheduler.rs:219-316 | a result exists exactly when the state is terminal and agrees with it; jobs never started hold no devices |
| Schedules.NextGrantIsFirstInOrder | src/scheduler.rs:283-300 | the job that a run of the program may grant next is the first of the start order that the devices left over can serve |
| Schedules.RunningIdsAreCounted | src/scheduler.rs:277-282 | the count that such a run compares with the limit is the counter of the loop |
| Schedules.ChoiceIsForced | src/scheduler.rs:243-318 | in the middle of its polls and of its start loop the program has no two ways to go on |
| Schedules.ChoiceIsThere | src/scheduler.rs:243-318 | and it has one: the next poll or the end of the polls, the next grant or the end of the tick |
| Schedules.LeadsIsRun | src/scheduler.rs:136-318 | runs of the program are runs of the machine |
| Restarts.SomeInventoryServes | src/scheduler.rs:355-396 | every valid request is served by some inventory of idle devices, whatever is held |
| Restarts.PlaysRound | src/scheduler.rs:243-318 | from any world that satisfies the invariant, with any devices and under any limit, a run of the program: the lock holder stops, the workers end, the next daemon polls the running jobs and starts the first job of the start order that its devices serve; nothing else is started, and what else was pending stays as it was |
| Restarts.RestartsStart | src/scheduler.rs:243-318 | from any such world and under any limit, a run of the program without submissions that starts a given job that is pending in the file, whatever it requested and whatever else is queued or running |
| Cancellation.FinishedIsNeverStartedAgain | src/scheduler.rs:219-316 | a job with a terminal durable record gets no worker in any continuation |
| Cancellation.PendingInFileCanStart | src/scheduler.rs:22-43 | a job that is pending in the file is started in some run of the program without further submissions, under every limit |
| Cancellation.CancelIsFinalExactlyWhenDurable | src/scheduler.rs:219-241 | a cancel that answers Ok for a job that is not running is final over all runs of the machine exactly when the job was not cancelled in memory only; in that case, and only in it, some continuation starts the job, and so does some run of the program under every limit |
| Cancellation.SavedCancellationIsFinal | src/scheduler.rs:227-236 | a job whose cancellation was saved has no worker and never gets one |
| Cancellation.OkCancelledJobCanStart | src/scheduler.rs:235-238 | a concrete run of the program in which a job is started after its cancellation was answered with Ok |
| Unsaved.ForgottenJobRunsExactlyWhenInFile | src/scheduler.rs:202-207 | a job that memory does not know can be started without being submitted again exactly while the file holds it; if so, by a run of the program under every limit |
| Unsaved.RefusedSubmissionRunsExactlyWhenLanded | src/scheduler.rs:202-207 | a submission answered with an error can still be started exactly if its save failed after the rename; if so, by a run of the program under every limit |
| Unsaved.RefusedSubmissionCanRun | src/scheduler.rs:202-207 | a concrete run of the program in which it is |
| Limits.LoweredLimitIsExceeded | src/scheduler.rs:277-295 | a concrete run of the program: two jobs started under limit two, a crash, and a tick under limit one that leaves both running |
| Logs.ClosedLogIsFinal | src/executor.rs:77-83 | once a job has left the queue, has no worker and nothing without a lock may still write to its log, the log never grows in any continuation |
| Logs.VisibleResultClosesLog | src/scheduler.rs:245-256 | a job whose result is visible is in that situation, unless it was cancelled in memory only or something without a lock may still write |
| Logs.LogIsFinalExactlyWhen | src/executor.rs:77-92 | the log of a job whose result the daemon shows never grows again exactly if the job was not cancelled in memory only, no failed worker process of it is still exiting and no killed one has left processes behind that have it open; otherwise the program can come to add to it, under every limit |
| Logs.FinishedLogIsFinalExactlyWhen | src/executor.rs:108-126 | the log of a durably finished job never grows again exactly if there is neither such an exiting worker process nor such processes left behind |
| Logs.CleanedLogIsFinalExactlyWhen | src/cli.rs:300-327 | the offline clean deletes a log that could still grow exactly in those two cases |
| Logs.OwnChildLogIsFinal | src/executor.rs:82-84 | the log of a worker that this daemon has spawned is final when its poll delivers the result, exactly if the worker has not died and left processes behind that have it open |
| Logs.CancelledLogCanGrow | src/scheduler.rs:227-238 | a run of the program in which the shown result is a cancellation in memory only, and the log grows later |
| Logs.AdoptedLogCanGrow | src/executor.rs:77-92 | one in which an adopted worker fails, its result is shown and its log drained, and then its error line is printed |
| Logs.KilledLogCanGrow | src/executor.rs:197-202 | one in which the daemon's own worker is killed, its result is shown and its log drained, and then a process of its command writes on |
| Sharing.SharingTakesOrphans | src/executor.rs:77-92 | in every reachable world a device used by processes of two jobs is used by processes that a killed worker has left behind |
| Sharing.ExclusiveWithoutDeaths | src/scheduler.rs:243-318 | over every run in which no worker dies without cleaning up, no device is used by processes of two jobs |
| Sharing.SharedExactlyIfKept | src/executor.rs:77-92 | with a pending job that asks for one device and would be served by this one, processes of two jobs can come to use the device without a further death exactly if processes left behind still use it; if so, by a run of the program under every limit |
| Sharing.KilledWorkersDeviceIsShared | src/executor.rs:197-202 | a concrete run of the program up to the point where that can happen |
| Platforms.Platform.WriteState | src/storage.rs:81-95 | success is reported exactly when nothing failed, and the file ends up as the new store exactly when the rename happened, that is when the call worked or failed only after it |
| Platforms.Platform.Poll | src/executor.rs:71-92 | busy while the worker holds its lock; ended only when the lock is free and, for a child of this daemon, the process has exited, with the written result, or with failure, code 1, the time and the text of the disappearance; the failing calls, before, at or after the lock |
| Platforms.Platform.WorkersRun | src/executor.rs:108-126 | any number of steps of any workers, live, exiting or killed, and of what these leave behind: files are only added, no lock comes back, the store and the daemon lock stay |
| Schedulers.ExcludingByDevice | src/scheduler.rs:60-72 | after exclude or include a listed device is as asked and every other one as before |
| Schedulers.ExcludingLaws | src/scheduler.rs:60-72 | repeats change nothing; include undoes exclude exactly when none of the devices was excluded before |
| Schedulers.Scheduler.Boot | src/scheduler.rs:22-43 | memory is the state file, nothing is excluded |
| Schedulers.Scheduler.SetDevicesExcluded | src/scheduler.rs:49-74 | accepted exactly if the IDs are all different and each is that of a device; then, device by device, those with a listed ID are as asked and everything else as before; a refusal changes nothing |
| Schedulers.Scheduler.Submit | src/scheduler.rs:136-208 | each answer with its exact condition; the accepted record field by field: the next ID, the caller's owner and request (the vendor settled for exact IDs), pending now, nothing granted, started or reported; after a failed save the file is as before, or holds that record exactly if the rename happened; keeps all pending jobs admitted |
| Schedulers.Scheduler.Get | src/scheduler.rs:210-217 | the job of that ID, or none exactly when there is none |
| Schedulers.Scheduler.Cancel | src/scheduler.rs:219-241 | for a pending job the record with cancelled, code 130, now and no error, in memory, and in the file exactly if the write was renamed; for a running one the cancel file exactly if it was renamed; for a finished one nothing; the answer is an error exactly if the write failed or the job is unknown |
| Schedulers.Scheduler.PollAll | src/scheduler.rs:244-256 | every running job was polled: it is still running exactly if its worker was found live, and otherwise only its state and result have changed; the file follows if anything changed |
| Schedulers.Scheduler.Launch | src/executor.rs:35-69 | lock, job file, log and spawn in that order; on success exactly one worker has been spawned for the job, on failure none; it fails only because one of these calls did, and the job records that call's message |
| Schedulers.Scheduler.StartNext | src/scheduler.rs:296-316 | one round of the loop is one step of the greedy plan; a worker is spawned exactly if the job is left running; the file holds what memory holds if anything changed |
| Schedulers.Scheduler.StartAll | src/scheduler.rs:283-316 | the loop, with its saves and failing starts, computes the greedy plan on the pending jobs in start order |
| Schedulers.Scheduler.Tick | src/scheduler.rs:243-318 | polls, then the greedy plan against held, excluded and non-idle devices; field by field, each job of the start loop is as it was, or running from now on, or failed now with code 1 and the message of a call that failed, on as many inventory devices as it asked for, all enabled, idle and not excluded by itself; no two running jobs have a device of the same vendor and visible name; work conservation, the running bound, exactly one worker spawned for each job started and left running, and memory saved if it changed; an error, which leaves the scheduler failed, comes only from a call that failed |
| Schedulers.Scheduler.Cleanup | src/scheduler.rs:80-134 | on success every job is kept but those that ended at least 604800 seconds ago, and no file of those is left; whatever it answers, only files of such jobs disappear and the file is as before or forgets just them; the directory listing, each entry and each deletion can fail, and only then does it; on failure memory is as before |
| Schedulers.Scheduler.Info | src/scheduler.rs:320-352 | a device is shown with a job exactly when that job is the running job holding its key, and as disabled if excluded, else as allocated if it has a job, else with its last status, else as unknown |
| Daemons.Serve | src/daemon.rs:70-94 | one daemon at a time, on the inventory vendor by vendor; exactly the devices with the IDs asked for are excluded, and the first tick already runs so; the clean-up follows it; the reasons for giving up, and the lock given back then |
| Daemons.AllowsRestart | src/daemon.rs:226-239 | a restart is let through exactly when no job is running, and then no worker is live |
| Daemons.WorkersOfAllDaemons | src/storage.rs:97-116 | whatever daemons ran and crashed on a state directory, its workers share no device and its recorded run spawns each job at most once |
| OfflineClean.Enter | src/cli.rs:286-304 | the three refusals, and no live worker otherwise |
| OfflineClean.Clean | src/cli.rs:284-346 | a refusal changes no file; a success removes exactly the job logs, counted, and the daemon's log; an error, which needs a failed call, removes some logs and nothing else; the lock is given back |
| Inventories.Validate | src/device/mod.rs:353-363 | a list is accepted exactly when it is not empty and no two entries agree in vendor and visible name |
| Inventories.Discover | src/device/mod.rs:61-117 | the lists of the selected vendors that can be used, NVIDIA's before Ascend's, Moore Threads', MetaX's, PPU's and Hygon's; an error exactly when the vendor asked for cannot be used |
| Inventories.InventoryKeysAreDistinct | src/device/mod.rs:61-117 | the inventory holds exactly the devices of the listed vendors and no key twice across vendors |
| Inventories.Monitor.Refresh | src/device/mod.rs:123-241 | a device without a good reading is unknown and withheld; an Ascend error is remembered exactly until the next good reading, and no other entry changes |
| Executors.Attend | src/executor.rs:222-269 | the first round that sees the command cancelled, or alive for as many seconds as its limit, is that of the one SIGTERM; SIGKILL in every later round from a second after it; the outcome is cancelled with code 130 or timed out with 124 as that round says, else the exit status, 128 and the signal if killed; an error of waiting is a failure with its message |
| Executors.Work | src/executor.rs:108-126 | the reported outcome is always terminal and dated now: the failure of the set-up or of the spawn with its message, a cancellation seen before the start, or that of the watch; completed or failed by its own exit means that no round saw the command cancelled or past its limit |
| Executors.KillOnlyAfterGrace | src/executor.rs:245-247 | no SIGKILL without a SIGTERM at least one second earlier |
| Draining.QuietTickIsRound | src/scheduler.rs:243-318 | a tick that finds nothing running any more is one of the finish-and-tick rounds of `Planner.Drains` |
| Draining.TickDrains | src/scheduler.rs:243-318 | a tick under any statuses and exclusions keeps pending jobs admitted, brings none back to pending, and takes one away if it finds nothing running, every enabled device idle and nothing disabled beyond the limit |
| Draining.TicksDrain | src/scheduler.rs:243-318 | the pending jobs are gone after as many such ticks as there were jobs, whatever else but a submission happens between them |
| Draining.SubmitAll | src/scheduler.rs:136-208 | what submit accepts is pending and admitted under the exclusions in force |
| Draining.PlayAll | src/daemon.rs:123-142 | ticks, exclusions, monitoring, cancellations and clean-ups of a scheduler, in any order, are such a sequence, each tick under the statuses and exclusions that the events before it leave |
| Draining.SubmitAndDrain | src/scheduler.rs:181-185 | n jobs accepted into an empty queue have left Pending once n ticks have found nothing running, the enabled devices idle and nothing disabled that was enabled at admission, whatever else of this happens between the ticks, whatever their results and whichever starts fail |
| Following.LogGrows | src/executor.rs:38-41 | while the system runs on, a log that is not cleaned away only grows at its end |
| Following.FinalLogIsComplete | src/executor.rs:77-83 | a log that is final is the same wherever the run leads |
| Following.LogChunk | src/daemon.rs:190-205 | a reply continues the log exactly from the offset, with all that is left up to 65536 bytes, and is empty exactly at or past the end |
| Following.CancelLeads | src/daemon.rs:185-189 | the client's cancellation request is a step of the machine that leaves the log alone and does exactly this: a pending job is cancelled now with code 130, in the file if the write was renamed; a running one gets its cancel file if it was renamed; a finished one stays as it is |
| Following.PrintLogChunk | src/cli.rs:576-595 | what was printed stays a prefix of the log, also when standard output fails within a chunk; more means the rest of the log up to 65536 bytes; no more exactly if all of it is printed; it fails exactly if the request does not get through to a daemon that knows the job, or if there is something to print and standard output fails |
| Following.Drain | src/cli.rs:521-527 | sixteen chunks at most; drained means the whole log of that moment was printed; the two failures each with their cause |
| Following.DrainedAfterResult | src/cli.rs:505-535 | with the result seen before the drain, what was printed is the whole log for ever exactly under the condition of `Logs.LogIsFinalExactlyWhen` |
| Following.Follow | src/cli.rs:494-538 | at every return a prefix of the log was printed, nothing lost or repeated; an exit code is that of the record seen, the worker's own, with all of the log file printed and the log complete exactly as above; one cancellation exactly if an interrupt was seen at a loop head, handled as one step of the machine and refused exactly if its write failed; unanswered requests, a refused cancellation and a failing standard output each end it for their own reason; it ends |
| Framing.Receive | src/daemon.rs:41-62 | the answer is what the stream as a whole frames, for all chunkings and interruptions |
| Framing.FrameMeaning | src/daemon.rs:49-60 | a message is a prefix that ends in its only byte 10, within the limit; too long, or cut short, each exactly when |
| Framing.RoundTrip | src/daemon.rs:33-62 | a payload without newlines comes back whole exactly when it fits in the limit |
| Framing.Rechunk | src/daemon.rs:44-57 | cutting a chunk or being interrupted changes neither the stream nor its end |

## Left out

- Schedulers.Scheduler.Tick: reads one clock value for the whole tick, where the program reads the clock at each start and failure.
- Schedulers.Scheduler.Boot: takes the state file as read; `Daemons.Serve` gives up when it cannot be read.
- Schedulers.Scheduler.Submit: whether the working directory exists and who the owner is are parameters; names, environments and directories of requests are not modelled.
- Schedulers.Scheduler.Cleanup: a file of a job stands for all entries whose names the program reads as that job's file of that kind: other spellings of the ID, as in `+5.log` and `005.log` beside `5.log`, and temporary files of several processes, go with it. Entries with other names are not modelled; the program leaves them alone.
- OfflineClean.Clean: counts the logs of different jobs; further spellings of an ID, which the program removes and counts as well, are not modelled.
- Schedulers.Scheduler.Info: the monitoring error shown beside a device is not part of the view; `Inventories.Monitor.Refresh` says which errors there are.
- Platforms.Platform.WorkersRun: workers act between the calls of the scheduler, and while it waits for one of them, not within a call; each call is a single effect.
- Platforms.Platform.WriteState: a power failure, which could lose a rename that was not yet synced, is not modelled; a crash is that of a process.
- Inventories.Discover: what a vendor's library or tool lists is a parameter; loading and querying it is not modelled.
- Inventories.Monitor.Refresh: the reading of a device is a parameter; parsing what the tools print is not modelled.
- Executors.Attend: one clock reading per round instead of two or three; the command is taken to end at some round, which is what the loop waits for.
- Following.Follow: the job is taken to end and its log to be bounded and not cleaned away, which is what the loop waits for; messages on stderr are not modelled.
- Logs.LogIsFinalExactlyWhen: processes that the command has moved out of its process group, which may keep the log open and the devices in use after the worker has cleaned up, are outside the scheduler's contract and not modelled; those that stay in the group and outlive a killed worker are.
- Sharing.SharedExactlyIfKept: the status of a device is whatever monitoring reports; that monitoring may see the processes left behind and report the device busy, which keeps it from being granted as long as they show, is not modelled.
- The endless loop of `serve`: its operations are single steps or methods here and may come in any order; the daemon's refusal of an empty ID list to exclude or include is a check in front of `SetDevicesExcluded`.
- Users, sockets, peer credentials, authorization, permissions of files, signals, process groups and the environment of the command.
- The text forms: JSON, the command line, tables, times, the list of `xqueue`, and the visibility variables of the vendors.
- Fairness: small jobs may overtake a large one for ever, in the program as in the model; only the promise within one tick is stated.
