/** What holds in every reachable world and over every run: the promises of the scheduler. */
module Guarantees {
  import opened Model
  import opened Machine
  import opened Invariants
  import opened Preservation

  // ----- Physical exclusivity and at-most-once execution -----

  /** No two live workers hold a device with the same key, and no worker holds one twice. */
  lemma DevicesAreExclusive(w: World)
    requires Reachable(w)
    ensures forall a, b | a in w.workers && b in w.workers && a != b ::
              Keys(w.workers[a].devices) !! Keys(w.workers[b].devices)
    ensures forall a | a in w.workers :: DistinctKeys(w.workers[a].devices)
    ensures forall a, b, i, j | a in w.workers && b in w.workers && a != b
                                && 0 <= i < |w.workers[a].devices| && 0 <= j < |w.workers[b].devices| ::
              var d, e := w.workers[a].devices[i], w.workers[b].devices[j];
              d.kind != e.kind || d.visible != e.visible
  {
    hide Reachable, PastOk, AcksOk, FilesOk, HolderOk;
    ReachableIsOk(w);
    forall a, b, i, j | a in w.workers && b in w.workers && a != b
                        && 0 <= i < |w.workers[a].devices| && 0 <= j < |w.workers[b].devices|
      ensures w.workers[a].devices[i].Key() != w.workers[b].devices[j].Key()
    {
      assert w.workers[a].devices[i].Key() in Keys(w.workers[a].devices);
      assert w.workers[b].devices[j].Key() in Keys(w.workers[b].devices);
    }
    forall a | a in w.workers ensures DistinctKeys(w.workers[a].devices) {
      assert WellFormed(w.hist[a]);
    }
  }

  /** A live worker's job is running in the state file and in the memory of a scheduler that is being served. */
  lemma WorkersAreKnown(w: World, id: nat)
    requires Reachable(w) && id in w.workers
    ensures id in w.durable.jobs && w.durable.jobs[id].state == Running
              && w.workers[id].devices == w.durable.jobs[id].devices
    ensures w.holder.Serving? && !w.holder.d.phase.Failing? ==> HasJob(w, id, Running)
  {
    hide Reachable, JobsOk, PastOk, AcksOk, FilesOk, Ahead, Agree, SpawnedIsKept;
    ReachableIsOk(w);
  }

  /** At most one worker is ever spawned for a job ID, whatever crashes and restarts the run contains. */
  lemma AtMostOneWorker(w: World, id: nat)
    requires Reachable(w)
    ensures w.spawns[id] <= 1
  {
    hide Reachable, JobsOk, AcksOk, FilesOk, HolderOk, WorkersOk, HistoryOk;
    ReachableIsOk(w);
  }

  // ----- Results -----

  /** The record of a finished job that was started carries the result its own worker wrote; if the worker wrote
      none, a failure; and no such record exists while the worker is live. Records are the durable ones, the
      last known ones, and those in the memory of a scheduler that has not failed. */
  lemma ResultsAreExact(w: World, job: Job)
    requires Reachable(w) && job.state.Terminal()
    requires job in w.hist.Values
             || (w.holder.Serving? && !w.holder.d.phase.Failing? && job in w.holder.d.ledger.jobs.Values)
    ensures job.startedAt.Some? && job.id in w.reports ==> job.result == Some(w.reports[job.id])
    ensures job.startedAt.Some? && job.id !in w.reports ==>
              && job.result.Some? && job.result.value.state == Failed
              && (job.id in w.spawns ==> job.result.value.error == Some(DISAPPEARED))
    ensures job.startedAt.None? ==> job.state == Cancelled && job.id !in w.spawns && job.id !in w.reports
    ensures job.id !in w.workers
  {
    hide Reachable, AcksOk, FilesOk, SpawnedIsKept, Agree;
    ReachableIsOk(w);
    assert WellFormed(job) && Exact(w.spawns, w.reports, job);
  }

  /** A crash between a poll and its save loses nothing: as long as the file says running, the next poll that finds
      the worker gone delivers the result it wrote. */
  lemma PollDeliversTheReport(w: World, id: nat, now: nat)
    requires Reachable(w) && id in w.reports && id in w.durable.jobs && w.durable.jobs[id].state == Running
    ensures PolledOutcome(w.files, id, now) == w.reports[id]
  {
    hide Reachable, JobsOk, HistoryOk, PastOk, AcksOk, WorkersOk, HolderOk;
    ReachableIsOk(w);
  }

  /** A result once written is never replaced, in any continuation. */
  lemma {:induction false} ReportsArePermanent(w: World, steps: seq<Step>, id: nat)
    requires Inv(w) && IsRun(w, steps) && id in w.reports
    ensures var u := After(w, steps); id in u.reports && u.reports[id] == w.reports[id]
    decreases |steps|
  {
    hide Inv, Enabled, Apply;
    if steps != [] {
      ReportIsKept(w, steps[0], id);
      StepKeeps(w, steps[0]);
      ReportsArePermanent(Apply(w, steps[0]), steps[1..], id);
    }
  }

  lemma ReportIsKept(w: World, step: Step, id: nat)
    requires Inv(w) && Enabled(w, step) && id in w.reports
    ensures var u := Apply(w, step); id in u.reports && u.reports[id] == w.reports[id]
  {
    hide JobsOk, HistoryOk, PastOk, AcksOk, FilesOk, HolderOk;
    if step.WorkerReports? {
      ReportIsNew(w, step.id, step.outcome);
    } else {
      hide Inv;
      OtherStepsKeepReports(w, step);
    }
  }

  lemma ReportIsNew(w: World, id: nat, outcome: Outcome)
    requires Inv(w) && MayReport(w, id, outcome)
    ensures id !in w.reports
  {
    hide JobsOk, HistoryOk, PastOk, AcksOk, FilesOk, HolderOk;
  }

  /** What only the workers change. */
  predicate SameOutside(w: World, u: World) {
    u.reports == w.reports && u.exiting == w.exiting && u.orphans == w.orphans
  }

  lemma PollsKeepOutside(w: World, step: Step)
    requires Enabled(w, step) && IsPolling(step)
    ensures SameOutside(w, Apply(w, step))
  {
    if step.PollDone? {
      assert Apply(w, step) == DoPoll(w, step.id, step.now);
      hide Enabled, Apply;
    } else if step.EndPolls? {
      assert Apply(w, step) == DoEndPolls(w, step.save);
      hide Enabled, Apply;
      EndPollsKeepsOutside(w, step.save);
    }
  }

  lemma EndPollsKeepsOutside(w: World, save: Save)
    requires w.holder.Serving? && w.holder.d.phase.Polling?
    ensures SameOutside(w, DoEndPolls(w, save))
  {
  }

  lemma StartsKeepOutside(w: World, step: Step)
    requires Enabled(w, step) && IsStarting(step)
    ensures SameOutside(w, Apply(w, step))
  {
    match step
    case Grant(id, now) => assert Apply(w, step) == DoGrant(w, id, now);
    case Persist(save) => assert Apply(w, step) == SaveOrFail(w, save, Persisted(w.holder.d.phase.id));
    case Spawn => assert Apply(w, step) == DoSpawn(w);
    case StartFails(message, now, left) => assert Apply(w, step) == DoStartFails(w, message, now, left);
    case RecordRejection(save) => assert Apply(w, step) == SaveOrFail(w, save, Granting);
    case EndTick => assert Apply(w, step) == InPhase(w, Idle);
    case _ =>
  }

  lemma CleaningKeepsOutside(w: World, step: Step)
    requires Enabled(w, step) && IsCleaning(step)
    ensures SameOutside(w, Apply(w, step))
  {
    match step
    case BeginCleanup(now) => assert Apply(w, step) == DoBeginCleanup(w, now);
    case RemoveFile(name) => assert Apply(w, step) == DoRemove(w, name);
    case AbortCleanup => assert Apply(w, step) == InPhase(w, Idle);
    case EndCleanup(save) => assert Apply(w, step) == DoEndCleanup(w, save);
    case _ =>
  }

  lemma RequestsKeepOutside(w: World, step: Step)
    requires Enabled(w, step) && !IsPolling(step) && !IsStarting(step) && !IsWorkers(step) && !IsCleaning(step)
    ensures SameOutside(w, Apply(w, step))
  {
    match step
    case Submit(owner, spec, now, save) => assert Apply(w, step) == DoSubmit(w, owner, spec, now, save);
    case CancelPending(id, now, save) => assert Apply(w, step) == DoCancel(w, id, now, save);
    case _ =>
  }

  lemma OthersKeepOutside(w: World, step: Step)
    requires Enabled(w, step) && !IsWorkers(step)
    ensures SameOutside(w, Apply(w, step))
  {
    hide Enabled, Apply, SameOutside;
    if IsPolling(step) {
      PollsKeepOutside(w, step);
    } else if IsStarting(step) {
      StartsKeepOutside(w, step);
    } else if IsCleaning(step) {
      CleaningKeepsOutside(w, step);
    } else {
      RequestsKeepOutside(w, step);
    }
  }

  lemma WorkersKeepReports(w: World, step: Step)
    requires Enabled(w, step) && IsWorkers(step) && !step.WorkerReports?
    ensures Apply(w, step).reports == w.reports
  {
  }

  lemma OtherStepsKeepReports(w: World, step: Step)
    requires Enabled(w, step) && !step.WorkerReports?
    ensures Apply(w, step).reports == w.reports
  {
    hide Enabled, Apply;
    if IsWorkers(step) { WorkersKeepReports(w, step); } else { OthersKeepOutside(w, step); }
  }

  // ----- Job IDs -----

  /** The IDs acknowledged over the whole run increase strictly, so none is ever issued twice; each is bounded
      by the durable counter and stays in the state file until its job is finished. */
  lemma AcknowledgedIdsAreUnique(w: World)
    requires Reachable(w)
    ensures forall i, j | 0 <= i < j < |w.acks| :: w.acks[i] < w.acks[j]
    ensures forall i | 0 <= i < |w.acks| :: w.acks[i] <= w.durable.nextId <= MAX_ID
    ensures forall i | 0 <= i < |w.acks| ::
              w.acks[i] in w.durable.jobs || (w.acks[i] in w.hist && w.hist[w.acks[i]].state.Terminal())
  {
    hide Reachable, JobsOk, PastOk, FilesOk, HolderOk, WorkersOk;
    ReachableIsOk(w);
  }

  /** The durable counter bounds every ID in the file, memory's bounds every ID in memory and is never behind. */
  lemma CountersBoundIds(w: World)
    requires Reachable(w)
    ensures forall id | id in w.durable.jobs || id in w.hist :: 0 < id <= w.durable.nextId
    ensures w.holder.Serving? && !w.holder.d.phase.Failing? ==>
              && w.durable.nextId <= w.holder.d.ledger.nextId
              && forall id | id in w.holder.d.ledger.jobs :: 0 < id <= w.holder.d.ledger.nextId
  {
    hide Reachable, PastOk, AcksOk, FilesOk, WorkersOk, Covers, Agree, SpawnedIsKept;
    ReachableIsOk(w);
  }

  lemma CounterStep(w: World, step: Step)
    requires Inv(w) && Enabled(w, step)
    ensures w.durable.nextId <= Apply(w, step).durable.nextId
  {
    hide Inv;
    if step.Submit? || step.CancelPending? {
      MemoryIsAhead(w);
      RequestsWriteMore(w, step);
    } else if SavesMemory(step) {
      MemoryIsAhead(w);
      SavesWriteMemory(w, step);
    } else {
      OtherStepsKeepHistory(w, step);
    }
  }

  lemma MemoryIsAhead(w: World)
    requires Inv(w) && w.holder.Serving? && !w.holder.d.phase.Failing?
    ensures Ahead(w.durable, w.hist, w.holder.d.ledger) && w.durable.nextId <= w.holder.d.ledger.nextId
  {
    hide JobsOk, HistoryOk, PastOk, AcksOk, WorkersOk, FilesOk, Covers, SpawnedIsKept, Agree;
  }

  lemma RequestsWriteMore(w: World, step: Step)
    requires Enabled(w, step) && (step.Submit? || step.CancelPending?)
    ensures Apply(w, step).durable == w.durable || w.holder.d.ledger.nextId <= Apply(w, step).durable.nextId
  {
    if step.Submit? {
      assert Apply(w, step) == DoSubmit(w, step.owner, step.spec, step.now, step.save);
      hide Enabled, Apply;
      SubmitWritesMore(w, step.owner, step.spec, step.now, step.save);
    } else {
      assert Apply(w, step) == DoCancel(w, step.id, step.now, step.save);
      hide Enabled, Apply;
      CancelWritesMore(w, step.id, step.now, step.save);
    }
  }

  lemma SubmitWritesMore(w: World, owner: nat, spec: Submission, now: nat, save: Save)
    requires w.holder.Serving?
    ensures var u := DoSubmit(w, owner, spec, now, save);
            u.durable == w.durable || w.holder.d.ledger.nextId <= u.durable.nextId
  {
  }

  lemma CancelWritesMore(w: World, id: nat, now: nat, save: Save)
    requires HasJob(w, id, Pending)
    ensures var u := DoCancel(w, id, now, save);
            u.durable == w.durable || w.holder.d.ledger.nextId <= u.durable.nextId
  {
  }

  /** The file and the history are as before, or what memory holds has been written. */
  ghost predicate Wrote(w: World, u: World) {
    || (u.durable == w.durable && u.hist == w.hist)
    || (w.holder.Serving? && u.durable.nextId == w.holder.d.ledger.nextId && u.hist == w.hist + w.holder.d.ledger.jobs)
  }

  lemma SavesWriteMemory(w: World, step: Step)
    requires Enabled(w, step) && SavesMemory(step)
    ensures Wrote(w, Apply(w, step))
  {
    hide Enabled, Apply, Wrote;
    match step
    case EndPolls(save) => EndPollsWrites(w, save);
    case EndCleanup(save) => EndCleanupWrites(w, save);
    case Persist(save) => PersistWrites(w, save);
    case RecordRejection(save) => RecordRejectionWrites(w, save);
  }

  lemma EndPollsWrites(w: World, save: Save)
    requires Enabled(w, EndPolls(save))
    ensures Wrote(w, Apply(w, EndPolls(save)))
  {
  }

  lemma EndCleanupWrites(w: World, save: Save)
    requires Enabled(w, EndCleanup(save))
    ensures Wrote(w, Apply(w, EndCleanup(save)))
  {
  }

  lemma PersistWrites(w: World, save: Save)
    requires Enabled(w, Persist(save))
    ensures Wrote(w, Apply(w, Persist(save)))
  {
  }

  lemma RecordRejectionWrites(w: World, save: Save)
    requires Enabled(w, RecordRejection(save))
    ensures Wrote(w, Apply(w, RecordRejection(save)))
  {
  }

  lemma {:induction false} DurableCounterNeverDecreases(w: World, steps: seq<Step>)
    requires Inv(w) && IsRun(w, steps)
    ensures w.durable.nextId <= After(w, steps).durable.nextId
    decreases |steps|
  {
    hide Inv, Enabled, Apply;
    if steps != [] {
      CounterStep(w, steps[0]);
      StepKeeps(w, steps[0]);
      DurableCounterNeverDecreases(Apply(w, steps[0]), steps[1..]);
    }
  }

  // ----- Files -----

  /** No orphan files: in every reachable world, so at every crash point, a per-job file belongs to a job of the
      state file that was started. Hence a started job leaves the file only when all its files are gone. */
  lemma FilesHaveOwners(w: World)
    requires Reachable(w)
    ensures forall f | f in w.files :: f.id in w.durable.jobs && w.durable.jobs[f.id].startedAt.Some?
  {
    hide Reachable, JobsOk, HistoryOk, PastOk, AcksOk, WorkersOk, HolderOk;
    ReachableIsOk(w);
  }

  /** Only two steps delete a file: the clean-up, of a job that is terminal and past its retention time and has
      no worker, and the offline clean, of a log. */
  lemma DeletionsAreJustified(w: World, step: Step, f: FileName)
    requires Reachable(w) && Enabled(w, step) && f in w.files && f !in Apply(w, step).files
    ensures
      || (step == RemoveFile(f) && w.holder.Serving? && w.holder.d.phase.Cleaning?
          && f.id in w.holder.d.ledger.jobs && f.id !in w.workers
          && var job := w.holder.d.ledger.jobs[f.id];
             && job.state in {Completed, Failed, Cancelled, TimedOut}
             && job.result.Some? && job.result.value.finishedAt + 604800 <= w.holder.d.phase.since)
      || (step == CleanerRemovesLog(f.id) && f.ext == LogFile && w.workers == map[])
  {
    hide Reachable, Inv, Apply;
    ReachableIsOk(w);
    DeletingSteps(w, step, f);
    if step.RemoveFile? { CleanupDeletesExpired(w, f); } else { CleanerIsAlone(w); }
  }

  lemma CleanupDeletesExpired(w: World, f: FileName)
    requires Inv(w) && w.holder.Serving? && w.holder.d.phase.Cleaning? && f in w.holder.d.phase.todo
    ensures f.id in w.holder.d.ledger.jobs && Expired(w.holder.d.ledger.jobs[f.id], w.holder.d.phase.since)
    ensures f.id !in w.workers
  {
    hide JobsOk, HistoryOk, PastOk, AcksOk, WorkersOk, FilesOk, Ahead, Agree, SpawnedIsKept, Covers;
    ExpiredIsNotRunning(w, f.id);
  }

  lemma DeletingSteps(w: World, step: Step, f: FileName)
    requires Enabled(w, step) && f in w.files && f !in Apply(w, step).files
    ensures step == RemoveFile(f) || (step == CleanerRemovesLog(f.id) && f.ext == LogFile)
  {
    hide Enabled, Apply;
    if !IsCleaning(step) { FilesAreKept(w, step); } else { CleaningDeletes(w, step, f); }
  }

  lemma CleaningDeletes(w: World, step: Step, f: FileName)
    requires Enabled(w, step) && IsCleaning(step) && f in w.files && f !in Apply(w, step).files
    ensures step == RemoveFile(f) || (step == CleanerRemovesLog(f.id) && f.ext == LogFile)
  {
  }

  lemma FilesAreKept(w: World, step: Step)
    requires Enabled(w, step) && !IsCleaning(step)
    ensures w.files.Keys <= Apply(w, step).files.Keys
  {
    hide Enabled, Apply;
    if IsStarting(step) {
      StartsKeepFiles(w, step);
    } else if IsPolling(step) {
      PollsKeepFiles(w, step);
    } else if IsWorkers(step) {
      WorkersKeepFiles(w, step);
    } else {
      RequestsKeepFiles(w, step);
    }
  }

  lemma StartsKeepFiles(w: World, step: Step)
    requires Enabled(w, step) && IsStarting(step)
    ensures w.files.Keys <= Apply(w, step).files.Keys
  {
  }

  lemma PollsKeepFiles(w: World, step: Step)
    requires Enabled(w, step) && IsPolling(step)
    ensures w.files.Keys <= Apply(w, step).files.Keys
  {
  }

  lemma WorkersKeepFiles(w: World, step: Step)
    requires Enabled(w, step) && IsWorkers(step)
    ensures w.files.Keys <= Apply(w, step).files.Keys
  {
  }

  lemma RequestsKeepFiles(w: World, step: Step)
    requires Enabled(w, step) && !IsPolling(step) && !IsStarting(step) && !IsWorkers(step) && !IsCleaning(step)
    ensures w.files.Keys <= Apply(w, step).files.Keys
  {
  }

  /** Whenever the offline clean has passed its check, no worker is live; it deletes logs and nothing else. */
  lemma CleanerIsAlone(w: World)
    requires Inv(w) && w.holder == Cleaner(true)
    ensures w.workers == map[]
  {
    hide JobsOk, PastOk, AcksOk, FilesOk;
  }

  lemma OfflineCleanIsSafe(w: World, id: nat)
    requires Reachable(w) && Enabled(w, CleanerRemovesLog(id))
    ensures w.workers == map[]
    ensures var u := Apply(w, CleanerRemovesLog(id));
            && u.durable == w.durable && u.reports == w.reports && u.hist == w.hist
            && (forall f | f in u.files :: f in w.files && u.files[f] == w.files[f])
            && (forall f | f in w.files && f != FileName(id, LogFile) :: f in u.files)
  {
    hide Reachable, Inv;
    ReachableIsOk(w);
    CleanerIsAlone(w);
  }

  // ----- Life cycle -----

  /** The history changes only by a save of a ledger that is ahead of it. */
  lemma HistoryChanges(w: World, step: Step) returns (ledger: Ledger)
    requires Inv(w) && Enabled(w, step)
    ensures || Apply(w, step).hist == w.hist
            || (Ahead(w.durable, w.hist, ledger) && Apply(w, step).hist == w.hist + ledger.jobs)
  {
    hide Inv, Enabled, Apply, Ahead;
    if step.Submit? {
      ledger := SubmitChanges(w, step);
    } else if step.CancelPending? {
      ledger := CancelChanges(w, step);
    } else if SavesMemory(step) {
      ledger := SavesAreOfMemory(w, step);
    } else {
      ledger := w.durable;
      OtherStepsKeepHistory(w, step);
    }
  }

  lemma SubmitChanges(w: World, step: Step) returns (ledger: Ledger)
    requires Inv(w) && step.Submit? && Enabled(w, step)
    ensures Ahead(w.durable, w.hist, ledger)
    ensures Apply(w, step).hist == w.hist || Apply(w, step).hist == w.hist + ledger.jobs
  {
    hide JobsOk, HistoryOk, PastOk, AcksOk, WorkersOk, FilesOk, Ahead, Covers, SpawnedIsKept, Agree;
    ledger := Submitted(w.holder.d.ledger, step.owner, step.spec, step.now);
    SubmittedIsSavable(w, w.holder.d, step.owner, step.spec, step.now);
    assert Apply(w, step) == DoSubmit(w, step.owner, step.spec, step.now, step.save);
  }

  lemma CancelChanges(w: World, step: Step) returns (ledger: Ledger)
    requires Inv(w) && step.CancelPending? && Enabled(w, step)
    ensures Ahead(w.durable, w.hist, ledger)
    ensures Apply(w, step).hist == w.hist || Apply(w, step).hist == w.hist + ledger.jobs
  {
    hide JobsOk, HistoryOk, PastOk, AcksOk, WorkersOk, FilesOk, Ahead, Covers, SpawnedIsKept, Agree;
    var d := w.holder.d;
    ledger := d.ledger.(jobs := d.ledger.jobs[step.id := d.ledger.jobs[step.id].Finish(Revocation(step.now))]);
    CancelledIsSavable(w, d, step.id, step.now);
    assert Apply(w, step) == DoCancel(w, step.id, step.now, step.save);
  }

  predicate SavesMemory(step: Step) {
    step.EndPolls? || step.Persist? || step.RecordRejection? || step.EndCleanup?
  }

  lemma SavesAreOfMemory(w: World, step: Step) returns (ledger: Ledger)
    requires Inv(w) && Enabled(w, step) && SavesMemory(step)
    ensures Ahead(w.durable, w.hist, ledger)
    ensures Apply(w, step).hist == w.hist || Apply(w, step).hist == w.hist + ledger.jobs
  {
    hide Inv, Apply;
    ledger := w.holder.d.ledger;
    MemoryIsAhead(w);
    SavesWriteMemory(w, step);
  }

  lemma OtherStepsKeepHistory(w: World, step: Step)
    requires Enabled(w, step) && !step.Submit? && !step.CancelPending? && !SavesMemory(step)
    ensures Apply(w, step).hist == w.hist && Apply(w, step).durable == w.durable
  {
  }

  /** Each step moves the last durable record of a job by at most one move of the life cycle, and no record of
      a job that ever was durable is forgotten. */
  lemma RecordsAdvance(w: World, step: Step, id: nat)
    requires Inv(w) && Enabled(w, step) && id in w.hist
    ensures id in Apply(w, step).hist && Advances(w.hist[id], Apply(w, step).hist[id])
  {
    hide Inv, Apply, Enabled;
    var ledger := HistoryChanges(w, step);
  }

  /** The closure of Advances: a terminal record is final, a running one keeps its devices and start time. */
  ghost predicate Descends(a: Job, b: Job) {
    && SameRequest(a, b)
    && (a.state.Terminal() ==> b == a)
    && (a.state == Running ==> b == a || (b.state.Terminal() && b.devices == a.devices && b.startedAt == a.startedAt))
  }

  /** Over any run, whatever crashes it contains. */
  lemma {:induction false} RecordsDescend(w: World, steps: seq<Step>, id: nat)
    requires Inv(w) && IsRun(w, steps) && id in w.hist
    ensures id in After(w, steps).hist && Descends(w.hist[id], After(w, steps).hist[id])
    decreases |steps|
  {
    hide Inv, Enabled, Apply;
    if steps != [] {
      RecordsAdvance(w, steps[0], id);
      StepKeeps(w, steps[0]);
      RecordsDescend(Apply(w, steps[0]), steps[1..], id);
    }
  }

  /** The steps that change the record of a job in memory. */
  predicate Updates(step: Step) {
    step.CancelPending? || step.PollDone? || step.Grant? || step.StartFails?
  }

  lemma PollsKeepLedger(w: World, step: Step)
    requires Enabled(w, step) && !Updates(step) && IsPolling(step)
    ensures Apply(w, step).holder.Serving? && Apply(w, step).holder.d.ledger == w.holder.d.ledger
  {
    match step
    case BeginTick => assert Apply(w, step) == InPhase(w, Polling(false));
    case PollOpens(id) => assert Apply(w, step) == w.(files := Touch(w.files, FileName(id, LockFile), Marker));
    case PollBusy(_) => assert Apply(w, step) == w;
    case PollFails(_) => assert Apply(w, step) == InPhase(w, Failing);
    case EndPolls(save) => assert Apply(w, step) == DoEndPolls(w, save);
  }

  lemma StartsKeepLedger(w: World, step: Step)
    requires Enabled(w, step) && !Updates(step) && IsStarting(step)
    ensures Apply(w, step).holder.Serving? && Apply(w, step).holder.d.ledger == w.holder.d.ledger
  {
  }

  lemma OtherStepsKeepRecords(w: World, step: Step, id: nat)
    requires Enabled(w, step) && !Updates(step) && w.holder.Serving? && Apply(w, step).holder.Serving?
    requires id in w.holder.d.ledger.jobs && id in Apply(w, step).holder.d.ledger.jobs
    requires id <= w.holder.d.ledger.nextId
    ensures Apply(w, step).holder.d.ledger.jobs[id] == w.holder.d.ledger.jobs[id]
  {
    if IsPolling(step) {
      hide Enabled, Apply;
      PollsKeepLedger(w, step);
    } else if IsStarting(step) {
      hide Enabled, Apply;
      StartsKeepLedger(w, step);
    } else if IsWorkers(step) {
      hide Enabled, Apply;
      WorkersKeepHolder(w, step);
    }
  }

  lemma WorkersKeepHolder(w: World, step: Step)
    requires Enabled(w, step) && IsWorkers(step)
    ensures Apply(w, step).holder == w.holder
  {
  }

  /** While one scheduler lives, its own records move in the same way. */
  lemma MemoryAdvances(w: World, step: Step, id: nat)
    requires Inv(w) && Enabled(w, step) && w.holder.Serving? && Apply(w, step).holder.Serving?
    requires !w.holder.d.phase.Failing?
    requires id in w.holder.d.ledger.jobs && id in Apply(w, step).holder.d.ledger.jobs
    ensures Advances(w.holder.d.ledger.jobs[id], Apply(w, step).holder.d.ledger.jobs[id])
  {
    if Updates(step) {
      hide Inv, Enabled, Apply, Advances;
      UpdatesAdvance(w, step, id);
    } else {
      hide Inv, Enabled, Apply;
      IdIsBounded(w, id);
      OtherStepsKeepRecords(w, step, id);
    }
  }

  lemma IdIsBounded(w: World, id: nat)
    requires Inv(w) && w.holder.Serving? && !w.holder.d.phase.Failing? && id in w.holder.d.ledger.jobs
    ensures id <= w.holder.d.ledger.nextId
  {
    hide JobsOk, HistoryOk, PastOk, AcksOk, WorkersOk, FilesOk, Covers, SpawnedIsKept, Ahead, Agree;
    NewIdIsNew(w, w.holder.d);
  }

  lemma UpdatesAdvance(w: World, step: Step, id: nat)
    requires Inv(w) && Enabled(w, step) && Updates(step) && !w.holder.d.phase.Failing?
    requires id in w.holder.d.ledger.jobs
    ensures JobAdvances(w, Apply(w, step), id)
  {
    hide Inv, Apply, JobAdvances;
    match step
    case CancelPending(cancelled, now, save) => CancelAdvances(w, cancelled, now, save, id);
    case PollDone(polled, now) => PollAdvances(w, polled, now, id);
    case Grant(granted, now) => GrantAdvances(w, granted, now, id);
    case StartFails(message, now, left) => StartFailsAdvances(w, message, now, left, id);
  }

  /** The record of the job in memory has moved by at most one move of the life cycle. */
  ghost predicate JobAdvances(w: World, u: World, id: nat) {
    && w.holder.Serving? && u.holder.Serving? && id in w.holder.d.ledger.jobs && id in u.holder.d.ledger.jobs
    && Advances(w.holder.d.ledger.jobs[id], u.holder.d.ledger.jobs[id])
  }

  lemma CancelAdvances(w: World, cancelled: nat, now: nat, save: Save, id: nat)
    requires Inv(w) && Enabled(w, CancelPending(cancelled, now, save)) && id in w.holder.d.ledger.jobs
    ensures JobAdvances(w, Apply(w, CancelPending(cancelled, now, save)), id)
  {
    hide JobsOk, HistoryOk, PastOk, AcksOk, WorkersOk, FilesOk, Covers, SpawnedIsKept, Ahead, Agree;
    PendingHasNotStarted(w, w.holder.d, cancelled);
    assert Apply(w, CancelPending(cancelled, now, save)) == DoCancel(w, cancelled, now, save);
  }

  lemma PollAdvances(w: World, polled: nat, now: nat, id: nat)
    requires Inv(w) && Enabled(w, PollDone(polled, now)) && id in w.holder.d.ledger.jobs
    ensures JobAdvances(w, Apply(w, PollDone(polled, now)), id)
  {
    hide Inv, Savable, PolledOutcome;
    PolledIsSavable(w, polled, now);
    assert Apply(w, PollDone(polled, now)) == DoPoll(w, polled, now);
  }

  lemma GrantAdvances(w: World, granted: nat, now: nat, id: nat)
    requires Enabled(w, Grant(granted, now)) && id in w.holder.d.ledger.jobs
    ensures JobAdvances(w, Apply(w, Grant(granted, now)), id)
  {
    hide Reserved;
    assert Apply(w, Grant(granted, now)) == DoGrant(w, granted, now);
  }

  lemma StartFailsAdvances(w: World, message: string, now: nat, left: Option<Ext>, id: nat)
    requires Inv(w) && Enabled(w, StartFails(message, now, left)) && id in w.holder.d.ledger.jobs
    ensures JobAdvances(w, Apply(w, StartFails(message, now, left)), id)
  {
    hide JobsOk, HistoryOk, PastOk, AcksOk, WorkersOk, FilesOk, Covers, SpawnedIsKept, Ahead, Agree;
    assert Apply(w, StartFails(message, now, left)) == DoStartFails(w, message, now, left);
  }

  /** Every record, durable or in memory, is well formed. */
  lemma RecordsAreWellFormed(w: World)
    requires Reachable(w)
    ensures forall id | id in w.hist :: w.hist[id].id == id && WellFormed(w.hist[id])
    ensures forall id | id in w.durable.jobs :: id in w.hist && w.durable.jobs[id] == w.hist[id]
    ensures w.holder.Serving? && !w.holder.d.phase.Failing? ==>
              forall id | id in w.holder.d.ledger.jobs ::
                w.holder.d.ledger.jobs[id].id == id && WellFormed(w.holder.d.ledger.jobs[id])
  {
    hide Reachable, PastOk, AcksOk, FilesOk, WorkersOk, Covers, Agree, SpawnedIsKept, Exact, WellFormed;
    ReachableIsOk(w);
  }
}
