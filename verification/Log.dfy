/** When the log of a job is complete. */
module Logs {
  import opened Model
  import opened Allocator
  import opened Cancellation
  import opened Effects
  import opened Guarantees
  import opened Invariants
  import opened Machine
  import opened Preservation
  import opened Restarts
  import opened Schedules

  /** The log is as it was, or it has been removed. */
  predicate SameOrGone(w: World, u: World, id: nat) {
    var log := FileName(id, LogFile);
    log in u.files ==> log in w.files && u.files[log] == w.files[log]
  }

  /** No continuation ever adds to the log. */
  ghost predicate LogIsFinal(w: World, id: nat) {
    forall steps: seq<Step> | IsRun(w, steps) :: SameOrGone(w, After(w, steps), id)
  }

  /** Some run of the program adds to it. */
  ghost predicate ProgramLogCanGrow(a: At, id: nat, cap: nat) {
    exists steps: seq<Step>, b: At :: Leads(a, steps, b, cap) && !SameOrGone(a.w, b.w, id)
  }

  /** The log is final exactly on this condition; otherwise the program can come to add to it, under every limit. */
  ghost predicate FinalExactlyIf(w: World, id: nat, condition: bool) {
    && (LogIsFinal(w, id) <==> condition)
    && forall a: At, cap: nat | a.w == w && cap > 0 :: (ProgramLogCanGrow(a, id, cap) <==> !condition)
  }

  /** The log is there, and the command of a worker that died without cleaning up still has it open. */
  predicate LeftBehind(w: World, id: nat) {
    id in w.orphans && FileName(id, LogFile) in w.files
  }

  /** The log is there, and something that holds no lock may still write to it: a worker process that has failed and has
      its error to print, or what a dead worker has left behind. */
  predicate LateWriter(w: World, id: nat) {
    (id in w.exiting && w.exiting[id].WithError? && FileName(id, LogFile) in w.files) || LeftBehind(w, id)
  }

  /** The job has no worker and is not about to get one. */
  predicate NotAttempted(w: World, id: nat) {
    id !in w.workers && !(Attempting(w) && w.holder.d.phase.id == id)
  }

  /** The job has left the queue, has no worker, is not about to get one, and nothing else writes to its log. */
  ghost predicate Closed(w: World, id: nat) {
    id in w.hist && w.hist[id].state != Pending && NotAttempted(w, id) && !LateWriter(w, id)
  }

  // ----- A closed log stays as it is -----

  lemma ClosedIsNotGranted(w: World, id: nat)
    requires Inv(w) && Closed(w, id) && w.holder.Serving? && !w.holder.d.phase.Failing?
    ensures id in w.holder.d.ledger.jobs ==> w.holder.d.ledger.jobs[id].state != Pending
    ensures w.holder.d.phase != Granted(id)
  {
    hide PastOk, JobsOk, AcksOk, WorkersOk, FilesOk, Covers, SpawnedIsKept, Agree;
  }

  lemma ClosedLogStep(w: World, step: Step, id: nat)
    requires Enabled(w, step) && Closed(w, id)
    ensures SameOrGone(w, Apply(w, step), id)
  {
  }

  lemma ClosedStays(w: World, step: Step, id: nat)
    requires Inv(w) && Enabled(w, step) && Closed(w, id)
    ensures Closed(Apply(w, step), id)
  {
    hide Inv;
    RecordsAdvance(w, step, id);
    if w.holder.Serving? && !w.holder.d.phase.Failing? { ClosedIsNotGranted(w, id); }
    ClosedLogStep(w, step, id);
    ClosedAttempts(w, step, id);
    ClosedIsNotLate(w, step, id);
  }

  lemma ClosedAttempts(w: World, step: Step, id: nat)
    requires Enabled(w, step) && Closed(w, id)
    requires w.holder.Serving? && !w.holder.d.phase.Failing? ==> w.holder.d.phase != Granted(id)
    ensures NotAttempted(Apply(w, step), id)
  {
    hide Enabled, Apply, NotAttempted;
    if IsStarting(step) {
      StartsAttemptAnother(w, step, id);
    } else if IsPolling(step) {
      PollsDoNotAttempt(w, step, id);
    } else if IsWorkers(step) {
      WorkersDoNotAttempt(w, step, id);
    } else {
      OthersDoNotAttempt(w, step, id);
    }
  }

  lemma StartsAttemptAnother(w: World, step: Step, id: nat)
    requires Enabled(w, step) && IsStarting(step) && NotAttempted(w, id)
    requires w.holder.Serving? && !w.holder.d.phase.Failing? ==> w.holder.d.phase != Granted(id)
    ensures NotAttempted(Apply(w, step), id)
  {
  }

  lemma PollsDoNotAttempt(w: World, step: Step, id: nat)
    requires Enabled(w, step) && IsPolling(step) && NotAttempted(w, id)
    ensures NotAttempted(Apply(w, step), id)
  {
  }

  lemma WorkersDoNotAttempt(w: World, step: Step, id: nat)
    requires Enabled(w, step) && IsWorkers(step) && NotAttempted(w, id)
    ensures NotAttempted(Apply(w, step), id)
  {
  }

  lemma OthersDoNotAttempt(w: World, step: Step, id: nat)
    requires Enabled(w, step) && !IsStarting(step) && !IsPolling(step) && !IsWorkers(step) && NotAttempted(w, id)
    ensures NotAttempted(Apply(w, step), id)
  {
  }

  lemma ClosedIsNotLate(w: World, step: Step, id: nat)
    requires Enabled(w, step) && Closed(w, id)
    ensures var u := Apply(w, step);
            && (id in u.exiting ==> id in w.exiting && u.exiting[id] == w.exiting[id])
            && (id in u.orphans ==> id in w.orphans)
  {
    hide Enabled, Apply;
    if IsWorkers(step) { WorkersLeaveClosed(w, step, id); } else { OthersKeepOutside(w, step); }
  }

  lemma WorkersLeaveClosed(w: World, step: Step, id: nat)
    requires Enabled(w, step) && IsWorkers(step) && id !in w.workers
    ensures var u := Apply(w, step);
            && (id in u.exiting ==> id in w.exiting && u.exiting[id] == w.exiting[id])
            && (id in u.orphans ==> id in w.orphans)
  {
  }

  lemma {:induction false} ClosedLogIsFinal(w: World, steps: seq<Step>, id: nat)
    requires Inv(w) && IsRun(w, steps) && Closed(w, id)
    ensures SameOrGone(w, After(w, steps), id)
    decreases |steps|
  {
    hide Inv, Enabled, Apply, Closed;
    if steps != [] {
      ClosedLogStep(w, steps[0], id);
      ClosedStays(w, steps[0], id);
      StepKeeps(w, steps[0]);
      ClosedLogIsFinal(Apply(w, steps[0]), steps[1..], id);
    }
  }

  lemma ClosedIsFinal(w: World, id: nat)
    requires Inv(w) && Closed(w, id)
    ensures FinalExactlyIf(w, id, true)
  {
    hide Inv, Enabled, Apply, Closed, SameOrGone, Leads;
    forall steps: seq<Step> | IsRun(w, steps) ensures SameOrGone(w, After(w, steps), id) {
      ClosedLogIsFinal(w, steps, id);
    }
    forall steps: seq<Step>, a: At, b: At, cap: nat | a.w == w && Leads(a, steps, b, cap)
      ensures SameOrGone(w, b.w, id)
    {
      LeadsIsRun(a, steps, b, cap);
    }
  }

  // ----- The three ways in which a log that looks complete still grows -----

  lemma GrowingIsNotFinal(w: World, id: nat)
    requires forall a: At, cap: nat | a.w == w && cap > 0 :: ProgramLogCanGrow(a, id, cap)
    ensures FinalExactlyIf(w, id, false)
  {
    hide Leads, IsRun, After, SameOrGone;
    var a := At(w, true, 0, false);
    assert ProgramLogCanGrow(a, id, 1);
    var steps: seq<Step>, b: At :| Leads(a, steps, b, 1) && !SameOrGone(a.w, b.w, id);
    LeadsIsRun(a, steps, b, 1);
  }

  lemma LateWriterWrites(w: World, id: nat)
    requires LateWriter(w, id)
    ensures FinalExactlyIf(w, id, false)
  {
    hide FinalExactlyIf, ProgramLogCanGrow;
    forall a: At, cap: nat | a.w == w && cap > 0 ensures ProgramLogCanGrow(a, id, cap) {
      LateBytes(a, id, cap);
    }
    GrowingIsNotFinal(w, id);
  }

  lemma LateBytes(a: At, id: nat, cap: nat)
    requires LateWriter(a.w, id)
    ensures ProgramLogCanGrow(a, id, cap)
  {
    hide Enabled, Apply, Leads;
    var step := if LeftBehind(a.w, id) then OrphansLog(id, [33]) else WorkerComplains(id, [33]);
    if step.OrphansLog? { OrphansLogEffect(a.w, id, [33]); } else { ComplainEffect(a.w, id, [33]); }
    LeadsFirst(a, step, cap);
    var log := a.w.files[FileName(id, LogFile)];
    assert log.Text? ==> |log.bytes + [33]| == |log.bytes| + 1;
    assert Leads(a, [step], Move(a, step), cap) && !SameOrGone(a.w, Move(a, step).w, id);
  }

  lemma RestartedJobLogs(w: World, id: nat)
    requires Inv(w) && id in w.durable.jobs && w.durable.jobs[id].state == Pending
    ensures FinalExactlyIf(w, id, false)
  {
    PendingHasNoLog(w, id);
    hide Inv, Leads, FinalExactlyIf;
    forall a: At, cap: nat | a.w == w && cap > 0 ensures ProgramLogCanGrow(a, id, cap) {
      var steps, b := RestartsStart(a, id, cap);
      assert Leads(a, steps, b, cap) && !SameOrGone(a.w, b.w, id);
    }
    GrowingIsNotFinal(w, id);
  }

  lemma PendingHasNoLog(w: World, id: nat)
    requires Inv(w) && id in w.durable.jobs && w.durable.jobs[id].state == Pending
    ensures FileName(id, LogFile) !in w.files
  {
    hide PastOk, AcksOk, WorkersOk, HolderOk;
    assert WellFormed(w.hist[id]);
  }

  // ----- Exactly when the log is complete -----

  /** A job whose result is visible has no worker and gets none, unless it was only cancelled in memory. */
  lemma VisibleResultClosesLog(w: World, id: nat)
    requires Reachable(w) && w.holder.Serving? && !w.holder.d.phase.Failing?
    requires id in w.holder.d.ledger.jobs && w.holder.d.ledger.jobs[id].result.Some?
    requires id in w.durable.jobs ==> w.durable.jobs[id].state != Pending
    requires !LateWriter(w, id)
    ensures Closed(w, id)
  {
    hide Reachable, Inv, LateWriter, NotAttempted;
    ReachableIsOk(w);
    VisibleHasLeftTheQueue(w, id);
    VisibleIsNotAttempted(w, id);
  }

  lemma VisibleIsNotAttempted(w: World, id: nat)
    requires Inv(w) && w.holder.Serving? && !w.holder.d.phase.Failing?
    requires id in w.holder.d.ledger.jobs && w.holder.d.ledger.jobs[id].result.Some?
    ensures NotAttempted(w, id)
  {
    hide HistoryOk, PastOk, AcksOk, FilesOk, SpawnedIsKept, Agree, Ahead, Exact, WorkersOk;
    assert WellFormed(w.holder.d.ledger.jobs[id]);
  }

  lemma VisibleHasLeftTheQueue(w: World, id: nat)
    requires Inv(w) && w.holder.Serving? && !w.holder.d.phase.Failing?
    requires id in w.holder.d.ledger.jobs && w.holder.d.ledger.jobs[id].result.Some?
    requires id in w.durable.jobs ==> w.durable.jobs[id].state != Pending
    ensures id in w.hist && w.hist[id].state != Pending
  {
    hide PastOk, AcksOk, FilesOk, SpawnedIsKept, Covers, Exact, WorkersOk;
    var d := w.holder.d;
    assert WellFormed(d.ledger.jobs[id]) && d.ledger.jobs[id].id == id;
    if OpenJob(d.phase) != Some(id) {
      assert Settled(w.durable.jobs, w.hist, d.ledger.jobs[id], d.phase.Polling? && d.phase.changed);
    }
  }

  /** The log of a job whose result the daemon shows is complete exactly when the job was not cancelled in memory
      only and nothing without a lock may still write to it. */
  lemma LogIsFinalExactlyWhen(w: World, id: nat)
    requires Reachable(w) && AtPhase(w, Idle)
    requires id in w.holder.d.ledger.jobs && w.holder.d.ledger.jobs[id].result.Some?
    ensures FinalExactlyIf(w, id, !OnlyCancelledInMemory(w, id) && !LateWriter(w, id))
  {
    hide Reachable, Inv, FinalExactlyIf, LateWriter, Closed;
    ReachableIsOk(w);
    VisibleIsTerminal(w, id);
    if OnlyCancelledInMemory(w, id) {
      RestartedJobLogs(w, id);
    } else if LateWriter(w, id) {
      LateWriterWrites(w, id);
    } else {
      VisibleResultClosesLog(w, id);
      ClosedIsFinal(w, id);
    }
  }

  lemma VisibleIsTerminal(w: World, id: nat)
    requires Reachable(w) && AtPhase(w, Idle) && id in w.holder.d.ledger.jobs && w.holder.d.ledger.jobs[id].result.Some?
    ensures w.holder.d.ledger.jobs[id].state.Terminal()
  {
    hide Reachable;
    RecordsAreWellFormed(w);
  }

  /** The same for a job that the file calls finished, whoever holds the lock. */
  lemma FinishedLogIsFinalExactlyWhen(w: World, id: nat)
    requires Reachable(w) && id in w.hist && w.hist[id].state.Terminal()
    ensures FinalExactlyIf(w, id, !LateWriter(w, id))
  {
    hide Reachable, Inv, FinalExactlyIf, LateWriter;
    ReachableIsOk(w);
    if LateWriter(w, id) {
      LateWriterWrites(w, id);
    } else {
      FinishedIsClosed(w, id);
      ClosedIsFinal(w, id);
    }
  }

  /** The offline clean deletes a log that could still grow exactly when something without a lock may write to it. */
  lemma CleanedLogIsFinalExactlyWhen(w: World, id: nat)
    requires Reachable(w) && w.holder == Cleaner(true) && FileName(id, LogFile) in w.files
    ensures FinalExactlyIf(w, id, !LateWriter(w, id))
  {
    hide Reachable, Inv, FinalExactlyIf, LateWriter;
    ReachableIsOk(w);
    CleanedIsFinished(w, FileName(id, LogFile));
    FinishedLogIsFinalExactlyWhen(w, id);
  }

  lemma CleanedIsFinished(w: World, f: FileName)
    requires Inv(w) && w.holder == Cleaner(true) && f in w.files
    ensures f.id in w.hist && w.hist[f.id].state.Terminal()
  {
    hide PastOk, AcksOk, WorkersOk;
    assert WellFormed(w.hist[f.id]);
  }

  lemma FinishedIsClosed(w: World, id: nat)
    requires Inv(w) && id in w.hist && w.hist[id].state.Terminal() && !LateWriter(w, id)
    ensures Closed(w, id)
  {
    hide JobsOk, PastOk, AcksOk, FilesOk, Ahead, Covers, SpawnedIsKept, Agree, LateWriter;
  }

  /** The daemon waits for the workers it has spawned itself, so their logs are complete when the result appears, unless
      the worker died and left processes of its command behind. */
  lemma OwnChildLogIsFinal(w: World, id: nat, now: nat)
    requires Reachable(w) && Enabled(w, PollDone(id, now)) && id in w.holder.d.children
    ensures FinalExactlyIf(Apply(w, PollDone(id, now)), id, !LeftBehind(w, id))
  {
    hide Reachable, Inv, FinalExactlyIf;
    ReachableIsOk(w);
    RunningIsDurable(w, id);
    DurableIsKnown(w, id);
    StepKeeps(w, PollDone(id, now));
    if LeftBehind(w, id) {
      LateWriterWrites(Apply(w, PollDone(id, now)), id);
    } else {
      ClosedIsFinal(Apply(w, PollDone(id, now)), id);
    }
  }

  lemma DurableIsKnown(w: World, id: nat)
    requires Inv(w) && id in w.durable.jobs
    ensures id in w.hist && w.hist[id] == w.durable.jobs[id]
  {
    hide JobsOk, PastOk, AcksOk, WorkersOk, FilesOk, HolderOk;
  }

  // ----- Runs in which it is not -----

  lemma NothingReported(w: World, id: nat)
    requires Inv(w) && id in w.workers && !w.workers[id].reported
    ensures FileName(id, ResultFile) !in w.files
  {
    hide JobsOk, HistoryOk, PastOk, AcksOk, HolderOk;
  }

  /** The run of the lost cancellation, up to the answer that shows the result, leaves an empty log that grows. */
  lemma CancelledLogCanGrow(cap: nat) returns (a: At, steps: seq<Step>, b: At)
    requires cap > 0
    ensures Leads(BEFORE, CANCEL_STEPS, a, cap) && Leads(a, steps, b, cap)
    ensures AtPhase(a.w, Idle) && 1 in a.w.holder.d.ledger.jobs
    ensures a.w.holder.d.ledger.jobs[1].result == Some(Revocation(0)) && FileName(1, LogFile) !in a.w.files
    ensures var log := FileName(1, LogFile); log in b.w.files && b.w.files[log] == Text([33])
  {
    hide Leads, Inv, Enabled, Apply;
    a := CancelledInMemoryOnly(cap);
    var rest, running, first := PlaysRound(a, [], 1, cap);
    assert first in PendingIds(a.w.durable.jobs);
    LogEffect(running.w, 1, [33]);
    LeadsNext(a, rest, running, WorkerLogs(1, [33]), cap);
    assert [] + [33] == [33];
    steps, b := rest + [WorkerLogs(1, [33])], Move(running, WorkerLogs(1, [33]));
  }

  /** A first job is submitted and started. */
  function FirstRun(devices: seq<Device>, spec: Submission): seq<Step> {
    FirstSteps(devices, spec, Saved) + NO_POLLS + ([Grant(1, 0)] + LAUNCH)
  }

  /** It has just been started, and its log is empty. */
  ghost predicate FirstRuns(w: World, devices: seq<Device>, spec: Submission)
    requires Allocate(spec, devices, {}).Some?
  {
    && Inv(w) && AtPhase(w, Granting) && w.holder.d.ledger == w.durable && w.durable.nextId == 1
    && w.holder.d.devices == devices && w.holder.d.status == AllIdle(devices) && w.holder.d.excluded == {}
    && w.holder.d.children == {1} && w.durable.jobs.Keys == {1} && w.durable.jobs[1].state == Running
    && w.workers == map[1 := Worker(Allocate(spec, devices, {}).value, false)]
    && w.exiting == map[] && w.orphans == map[]
    && FileName(1, LogFile) in w.files && w.files[FileName(1, LogFile)] == Text([])
  }

  lemma FirstJobRuns(devices: seq<Device>, spec: Submission, cap: nat) returns (a: At)
    requires DistinctKeys(devices) && ValidRequest(spec) && Allocate(spec, devices, {}).Some? && cap > 0
    ensures Leads(BEFORE, FirstRun(devices, spec), a, cap) && FirstRuns(a.w, devices, spec)
  {
    hide Leads, Inv, Allocate, Enabled, Apply, DistinctKeys, FirstSteps, FirstRuns;
    var first := FirstSteps(devices, spec, Saved);
    var submitted := FirstJobIsSubmitted(devices, spec, Saved, cap);
    NoPolls(submitted, cap);
    var granting := At(InPhase(submitted.w, Granting), true, 0, false);
    LeadsFurther(BEFORE, first, submitted, NO_POLLS, granting, cap);
    a := FirstStarts(granting, devices, spec, cap);
    LeadsFurther(BEFORE, first + NO_POLLS, granting, [Grant(1, 0)] + LAUNCH, a, cap);
    IsOk(FirstRun(devices, spec), a, cap);
  }

  lemma FirstStarts(a: At, devices: seq<Device>, spec: Submission, cap: nat) returns (b: At)
    requires Allocate(spec, devices, {}).Some? && cap > 0 && a.w.files == map[]
    requires a.w.holder == Serving(Daemon(Ledger(1, map[1 := NewJob(1, 0, spec, 0)]), devices, AllIdle(devices), {},
                                          Granting, {}))
    requires a.w.workers == map[] && a.w.exiting == map[] && a.w.orphans == map[]
    ensures Path(a, [Grant(1, 0)] + LAUNCH, b, cap) && (Inv(b.w) ==> FirstRuns(b.w, devices, spec))
  {
    hide Path, Inv, Allocate, Reserved;
    FirstIsNext(a, spec, cap);
    b := GrantingStarts(a, 1, cap);
  }

  lemma FirstIsNext(a: At, spec: Submission, cap: nat)
    requires AtPhase(a.w, Granting) && a.w.holder.d.ledger.jobs == map[1 := NewJob(1, 0, spec, 0)] && cap > 0
    requires a.w.holder.d.excluded == {} && a.w.holder.d.status == AllIdle(a.w.holder.d.devices)
    requires Allocate(spec, a.w.holder.d.devices, {}).Some?
    ensures CanGrant(a.w, 1) && Follows(a, Grant(1, 0), cap) && Reserved(a.w.holder.d) == {}
  {
    hide Allocate, Reserved;
    assert RunningIds(a.w.holder.d.ledger.jobs) == {};
    NothingReserved(a.w.holder.d);
  }

  /** A tick that finds the first job's worker gone. */
  const POLL_TICK: seq<Step> := [BeginTick, PollOpens(1), PollDone(1, 0), EndPolls(Saved), EndTick]

  /** It shows that the worker has disappeared, and changes no log. */
  ghost predicate ShownGone(w: World, u: World) {
    && AtPhase(w, Idle) && AtPhase(u, Idle) && u.holder.d.ledger == u.durable
    && u.holder.d == w.holder.d.(ledger := u.durable, children := w.holder.d.children - {1})
    && u == w.(holder := u.holder, durable := u.durable, hist := u.hist, files := u.files)
    && u.durable.nextId == w.durable.nextId && u.durable.jobs.Keys == {1} && u.durable.jobs[1].state == Failed
    && u.durable.jobs[1].result == Some(Failure(DISAPPEARED, 0)) && SameLogs(w.files, u.files)
  }

  lemma PollsGone(a: At, cap: nat) returns (b: At)
    requires AtPhase(a.w, Idle) && a.w.holder.d.ledger == a.w.durable && a.w.durable.jobs.Keys == {1}
    requires a.w.durable.jobs[1].state == Running && IsGone(a.w, 1) && FileName(1, ResultFile) !in a.w.files
    ensures Path(a, POLL_TICK, b, cap) && b == At(b.w, true, 0, false) && ShownGone(a.w, b.w)
  {
    hide Path, Enabled, Apply, ShownGone, GoneWorld;
    var polling := At(InPhase(a.w, Polling(false)), a.ticked, 0, false);
    BeginsTick(a, cap);
    var polled := FirstIsGone(polling, cap);
    PathFurther(a, [BeginTick], polling, [PollOpens(1), PollDone(1, 0)], polled, cap);
    GoneIsShown(a.w, polled.w);
    b := PollsGoneEnd(polled, cap);
    PathFurther(a, [BeginTick] + [PollOpens(1), PollDone(1, 0)], polled, [EndPolls(Saved), EndTick], b, cap);
    assert [BeginTick] + [PollOpens(1), PollDone(1, 0)] + [EndPolls(Saved), EndTick] == POLL_TICK;
  }

  lemma GoneIsShown(w: World, u: World)
    requires AtPhase(w, Idle) && w.holder.d.ledger == w.durable && w.durable.jobs.Keys == {1} && HasJob(w, 1, Running)
    requires u == GoneWorld(InPhase(w, Polling(false)))
    ensures var d := u.holder.d;
            && AtPhase(u, Polling(true)) && RunningIds(d.ledger.jobs) == {} && PendingIds(d.ledger.jobs) == {}
            && ShownGone(w, u.(holder := Serving(d.(phase := Idle)), durable := d.ledger,
                               hist := u.hist + d.ledger.jobs))
  {
  }

  lemma PollsGoneEnd(a: At, cap: nat) returns (b: At)
    requires AtPhase(a.w, Polling(true)) && !a.atLock
    requires RunningIds(a.w.holder.d.ledger.jobs) == PendingIds(a.w.holder.d.ledger.jobs) == {}
    ensures Path(a, [EndPolls(Saved), EndTick], b, cap) && b == At(b.w, true, 0, false)
    ensures var d := a.w.holder.d;
            b.w == a.w.(holder := Serving(d.(phase := Idle)), durable := d.ledger, hist := a.w.hist + d.ledger.jobs)
  {
    hide Path, Enabled, Apply;
    EndPollsEffect(a.w, Saved);
    PathFirst(a, EndPolls(Saved), cap);
    var granting := Move(a, EndPolls(Saved));
    EndsTick(granting, cap);
    b := At(InPhase(granting.w, Idle), true, 0, false);
    PathFurther(a, [EndPolls(Saved)], granting, [EndTick], b, cap);
    assert [EndPolls(Saved)] + [EndTick] == [EndPolls(Saved), EndTick];
  }

  lemma BeginsTick(a: At, cap: nat)
    requires AtPhase(a.w, Idle)
    ensures Path(a, [BeginTick], At(InPhase(a.w, Polling(false)), a.ticked, 0, false), cap)
  {
    hide Path, Enabled, Apply;
    PhaseEffect(a.w, BeginTick, Polling(false));
    PathFirst(a, BeginTick, cap);
  }

  lemma FirstIsGone(a: At, cap: nat) returns (b: At)
    requires AtPhase(a.w, Polling(false)) && a.next == 0 && !a.atLock && a.w.holder.d.ledger.jobs.Keys == {1}
    requires HasJob(a.w, 1, Running) && IsGone(a.w, 1) && FileName(1, ResultFile) !in a.w.files
    ensures Path(a, [PollOpens(1), PollDone(1, 0)], b, cap) && b == At(b.w, a.ticked, 2, false)
    ensures b.w == GoneWorld(a.w)
  {
    hide Path, Enabled, Apply, GoneWorld;
    assert RunningIds(a.w.holder.d.ledger.jobs) == {1};
    PollMissEffect(a.w, 1);
    PathFirst(a, PollOpens(1), cap);
    var open := Move(a, PollOpens(1));
    PollEffect(open.w, 1, 0);
    PathNext(a, [PollOpens(1)], open, PollDone(1, 0), cap);
    assert [PollOpens(1)] + [PollDone(1, 0)] == [PollOpens(1), PollDone(1, 0)];
    b := Move(open, PollDone(1, 0));
    PollOfGone(a.w, open.w);
  }

  /** The first job's worker has been found gone, without a result. */
  function GoneWorld(w: World): World
    requires HasJob(w, 1, Running)
  {
    var d := w.holder.d;
    var jobs := d.ledger.jobs[1 := d.ledger.jobs[1].Finish(Failure(DISAPPEARED, 0))];
    w.(holder := Serving(d.(ledger := d.ledger.(jobs := jobs), phase := Polling(true), children := d.children - {1})),
       files := Touch(w.files, FileName(1, LockFile), Marker))
  }

  lemma PollOfGone(w: World, open: World)
    requires HasJob(w, 1, Running) && FileName(1, ResultFile) !in w.files
    requires open == w.(files := Touch(w.files, FileName(1, LockFile), Marker))
    ensures DoPoll(open, 1, 0) == GoneWorld(w)
  {
  }

  /** The daemon crashes and the worker that is left fails; the next daemon adopts the job. */
  const ADOPTED_STEPS: seq<Step> :=
    [Crash, WorkerReleases(1, false, WithError), Boot([], AllIdle([]))] + POLL_TICK

  /** The worker of a daemon that serves on is killed, and leaves processes of its command behind. */
  const KILLED_STEPS: seq<Step> := [EndTick, WorkerDies(1)] + POLL_TICK

  /** The client sees that the worker has disappeared, and an empty log. */
  predicate ShowsNothing(w: World) {
    && AtPhase(w, Idle) && 1 in w.holder.d.ledger.jobs
    && w.holder.d.ledger.jobs[1].result == Some(Failure(DISAPPEARED, 0))
    && FileName(1, LogFile) in w.files && w.files[FileName(1, LogFile)] == Text([])
  }

  /** A worker adopted after a crash fails without a result: the result is shown and the log drained before its error
      line is printed. */
  lemma AdoptedLogCanGrow(cap: nat) returns (a: At, late: Step)
    requires cap > 0
    ensures Leads(BEFORE, FirstRun([], CPU_REQUEST) + ADOPTED_STEPS, a, cap) && ShowsNothing(a.w)
    ensures Enabled(a.w, late) && LogOnlyOf(Apply(a.w, late), [33])
  {
    hide Leads, Inv, Enabled, Apply, FirstSteps;
    var running := FirstJobRuns([], CPU_REQUEST, cap);
    NothingReported(running.w, 1);
    var adopted := AdoptsFailed(running, cap);
    a := PollsGone(adopted, cap);
    var change := [Crash, WorkerReleases(1, false, WithError), Boot([], AllIdle([]))];
    LeadsFurther(BEFORE, FirstRun([], CPU_REQUEST), running, change, adopted, cap);
    LeadsFurther(BEFORE, FirstRun([], CPU_REQUEST) + change, adopted, POLL_TICK, a, cap);
    assert FirstRun([], CPU_REQUEST) + change + POLL_TICK == FirstRun([], CPU_REQUEST) + ADOPTED_STEPS;
    late := WorkerComplains(1, [33]);
    ComplainEffect(a.w, 1, [33]);
    assert [] + [33] == [33];
  }

  predicate LogOnlyOf(w: World, bytes: seq<Byte>) {
    FileName(1, LogFile) in w.files && w.files[FileName(1, LogFile)] == Text(bytes)
  }

  lemma AdoptsFailed(a: At, cap: nat) returns (b: At)
    requires a.w.holder.Serving? && a.w.workers.Keys == {1}
    ensures Path(a, [Crash, WorkerReleases(1, false, WithError), Boot([], AllIdle([]))], b, cap)
    ensures b == At(a.w.(holder := Serving(Daemon(a.w.durable, [], AllIdle([]), {}, Idle, {})), workers := map[],
                         exiting := a.w.exiting[1 := WithError]), false, 0, false)
  {
    hide Path, Enabled, Apply;
    var free, failed := a.(w := a.w.(holder := Nobody)), WorkerReleases(1, false, WithError);
    Stops(a, cap);
    ReleaseEffect(free.w, 1, false, WithError);
    PathNext(a, [Crash], free, failed, cap);
    var released := Move(free, failed);
    BootEffect(released.w, [], AllIdle([]));
    assert [Crash] + [failed] == [Crash, failed];
    PathNext(a, [Crash, failed], released, Boot([], AllIdle([])), cap);
    assert [Crash, failed] + [Boot([], AllIdle([]))] == [Crash, failed, Boot([], AllIdle([]))];
    b := Move(released, Boot([], AllIdle([])));
  }

  /** The daemon's own worker is killed: the result is shown and the log drained while processes of its command are
      still writing. */
  lemma KilledLogCanGrow(cap: nat) returns (a: At, late: Step)
    requires cap > 0
    ensures Leads(BEFORE, FirstRun([], CPU_REQUEST) + KILLED_STEPS, a, cap) && ShowsNothing(a.w)
    ensures Enabled(a.w, late) && LogOnlyOf(Apply(a.w, late), [33])
  {
    hide Leads, Inv, Enabled, Apply, FirstSteps;
    var running := FirstJobRuns([], CPU_REQUEST, cap);
    NothingReported(running.w, 1);
    var killed := FirstIsKilled(running, cap);
    a := PollsGone(killed, cap);
    LeadsFurther(BEFORE, FirstRun([], CPU_REQUEST), running, [EndTick, WorkerDies(1)], killed, cap);
    LeadsFurther(BEFORE, FirstRun([], CPU_REQUEST) + [EndTick, WorkerDies(1)], killed, POLL_TICK, a, cap);
    assert FirstRun([], CPU_REQUEST) + [EndTick, WorkerDies(1)] + POLL_TICK
           == FirstRun([], CPU_REQUEST) + KILLED_STEPS;
    late := OrphansLog(1, [33]);
    OrphansLogEffect(a.w, 1, [33]);
    assert [] + [33] == [33];
  }

  lemma FirstIsKilled(a: At, cap: nat) returns (b: At)
    requires AtPhase(a.w, Granting) && PendingIds(a.w.holder.d.ledger.jobs) == {}
    requires 1 in a.w.workers && !a.w.workers[1].reported
    ensures Leads(a, [EndTick, WorkerDies(1)], b, cap)
    ensures b == At(DoWorkerDies(InPhase(a.w, Idle), 1), true, 0, false)
  {
    hide Leads, Enabled, Apply;
    EndsTick(a, cap);
    var idle := At(InPhase(a.w, Idle), true, 0, false);
    DieEffect(idle.w, 1);
    LeadsNext(a, [EndTick], idle, WorkerDies(1), cap);
    assert [EndTick] + [WorkerDies(1)] == [EndTick, WorkerDies(1)];
    b := Move(idle, WorkerDies(1));
  }
}
