/** When an acknowledged cancellation is final. */
module Cancellation {
  import opened Model
  import opened Allocator
  import opened Effects
  import opened Machine
  import opened Invariants
  import opened Preservation
  import opened Guarantees
  import opened Schedules
  import opened Restarts

  // ----- A durable end is final -----

  /** No later world starts the job: no worker is spawned for it, and no serving scheduler has it unfinished. */
  ghost predicate NeverStartedAgain(w: World, id: nat) {
    forall steps: seq<Step> | IsRun(w, steps) ::
      var u := After(w, steps);
      && u.spawns[id] == w.spawns[id]
      && (u.holder.Serving? && !u.holder.d.phase.Failing? && id in u.holder.d.ledger.jobs ==>
            u.holder.d.ledger.jobs[id].state.Terminal())
  }

  lemma TerminalIsKept(w: World, step: Step, id: nat)
    requires Inv(w) && Enabled(w, step) && id in w.hist && w.hist[id].state.Terminal()
    ensures var u := Apply(w, step);
            id in u.hist && u.hist[id] == w.hist[id] && u.spawns[id] == w.spawns[id]
  {
    RecordsAdvance(w, step, id);
    if step.Spawn? {
      hide JobsOk, PastOk, AcksOk, WorkersOk, FilesOk, Ahead, Covers, SpawnedIsKept, Agree;
      SpawnIsOfRunning(w);
    } else {
      hide Inv;
      OnlySpawnSpawns(w, step);
    }
  }

  lemma SpawnIsOfRunning(w: World)
    requires Inv(w) && CanSpawn(w)
    ensures w.holder.d.phase.id in w.hist && w.hist[w.holder.d.phase.id].state == Running
    ensures DoSpawn(w).spawns == w.spawns + multiset{w.holder.d.phase.id}
  {
    hide JobsOk, PastOk, AcksOk, WorkersOk, FilesOk, Ahead, Covers, SpawnedIsKept, Agree;
  }

  lemma OnlySpawnSpawns(w: World, step: Step)
    requires Enabled(w, step) && !step.Spawn?
    ensures Apply(w, step).spawns == w.spawns
  {
  }

  lemma TerminalInMemory(w: World, id: nat)
    requires Inv(w) && id in w.hist && w.hist[id].state.Terminal()
    requires w.holder.Serving? && !w.holder.d.phase.Failing? && id in w.holder.d.ledger.jobs
    ensures w.holder.d.ledger.jobs[id].state.Terminal()
  {
    hide JobsOk, PastOk, HistoryOk, AcksOk, WorkersOk, FilesOk, Covers, SpawnedIsKept, Agree;
  }

  lemma {:induction false} TerminalIsForever(w: World, steps: seq<Step>, id: nat)
    requires Inv(w) && IsRun(w, steps) && id in w.hist && w.hist[id].state.Terminal()
    ensures var u := After(w, steps);
            && Inv(u) && id in u.hist && u.hist[id] == w.hist[id] && u.spawns[id] == w.spawns[id]
    decreases |steps|
  {
    hide Inv, Enabled, Apply;
    if steps != [] {
      TerminalIsKept(w, steps[0], id);
      StepKeeps(w, steps[0]);
      TerminalIsForever(Apply(w, steps[0]), steps[1..], id);
    }
  }

  lemma FinishedIsNeverStartedAgain(w: World, id: nat)
    requires Inv(w) && id in w.hist && w.hist[id].state.Terminal()
    ensures NeverStartedAgain(w, id)
  {
    hide Inv, Enabled, Apply;
    forall steps: seq<Step> | IsRun(w, steps)
      ensures var u := After(w, steps);
              && u.spawns[id] == w.spawns[id]
              && (u.holder.Serving? && !u.holder.d.phase.Failing? && id in u.holder.d.ledger.jobs ==>
                    u.holder.d.ledger.jobs[id].state.Terminal())
    {
      TerminalIsForever(w, steps, id);
      var u := After(w, steps);
      if u.holder.Serving? && !u.holder.d.phase.Failing? && id in u.holder.d.ledger.jobs { TerminalInMemory(u, id); }
    }
  }

  // ----- What an Ok from cancel is worth -----

  /** The step behind cancel returning Ok for a job that is not running. */
  function OkCancel(w: World, id: nat, now: nat): Step
    requires AtPhase(w, Idle) && id in w.holder.d.ledger.jobs
  {
    if w.holder.d.ledger.jobs[id].state == Pending then CancelPending(id, now, Saved) else CancelFinished(id)
  }

  /** Memory says cancelled, the state file still says pending: an earlier save of the cancellation failed. */
  predicate OnlyCancelledInMemory(w: World, id: nat)
    requires AtPhase(w, Idle) && id in w.holder.d.ledger.jobs
  {
    w.holder.d.ledger.jobs[id].state.Terminal() && id in w.durable.jobs && w.durable.jobs[id].state == Pending
  }

  lemma OkCancelIsDurable(w: World, id: nat, now: nat)
    requires Inv(w) && AtPhase(w, Idle) && id in w.holder.d.ledger.jobs && w.holder.d.ledger.jobs[id].state != Running
    requires !OnlyCancelledInMemory(w, id)
    ensures Enabled(w, OkCancel(w, id, now))
    ensures var v := Apply(w, OkCancel(w, id, now)); id in v.hist && v.hist[id].state.Terminal()
  {
    hide PastOk, AcksOk, WorkersOk, FilesOk, Covers, SpawnedIsKept, Ahead, JobsOk;
    NewIdIsNew(w, w.holder.d);
    var job := w.holder.d.ledger.jobs[id];
    if job.state != Pending { assert Settled(w.durable.jobs, w.hist, job, false); }
  }

  /** Some continuation, without any further submission, spawns a worker for the job. */
  ghost predicate CanStillStart(w: World, id: nat) {
    exists steps: seq<Step> ::
      IsRun(w, steps) && NoSubmission(steps) && After(w, steps).spawns[id] == w.spawns[id] + 1
  }

  /** So does some run of the program. */
  ghost predicate ProgramCanStart(a: At, id: nat, cap: nat) {
    exists steps: seq<Step>, b: At ::
      Leads(a, steps, b, cap) && NoSubmission(steps) && b.w.spawns[id] == a.w.spawns[id] + 1
  }

  lemma ProgramStartIsStart(a: At, id: nat, cap: nat)
    requires ProgramCanStart(a, id, cap)
    ensures CanStillStart(a.w, id)
  {
    hide Leads, IsRun, After, NoSubmission;
    var steps: seq<Step>, b: At :|
      Leads(a, steps, b, cap) && NoSubmission(steps) && b.w.spawns[id] == a.w.spawns[id] + 1;
    LeadsIsRun(a, steps, b, cap);
  }

  /** Whatever the request is, and under any limit, a job that is pending in the file is started in some run of the
      program. */
  lemma PendingInFileCanStart(a: At, id: nat, cap: nat)
    requires Inv(a.w) && id in a.w.durable.jobs && a.w.durable.jobs[id].state == Pending && cap > 0
    ensures ProgramCanStart(a, id, cap)
  {
    hide Inv, Leads;
    var steps, b := RestartsStart(a, id, cap);
    assert Path(a, steps, b, cap);
  }

  /** The program can start the job under every limit exactly if some continuation starts it at all. */
  ghost predicate StartsExactlyIf(w: World, id: nat, condition: bool) {
    && (CanStillStart(w, id) <==> condition)
    && forall a: At, cap: nat | a.w == w && cap > 0 :: (ProgramCanStart(a, id, cap) <==> condition)
  }

  lemma StartsIfPending(w: World, id: nat)
    requires Inv(w) && id in w.durable.jobs && w.durable.jobs[id].state == Pending
    ensures StartsExactlyIf(w, id, true)
  {
    hide Inv, ProgramCanStart, CanStillStart;
    forall a: At, cap: nat | a.w == w && cap > 0 ensures ProgramCanStart(a, id, cap) {
      PendingInFileCanStart(a, id, cap);
    }
    ProgramStartIsStart(At(w, true, 0, false), id, 1);
  }

  lemma StartsOnlyIf(w: World, id: nat)
    requires !CanStillStart(w, id)
    ensures StartsExactlyIf(w, id, false)
  {
    hide ProgramCanStart, CanStillStart;
    forall a: At, cap: nat | a.w == w && cap > 0 ensures !ProgramCanStart(a, id, cap) {
      if ProgramCanStart(a, id, cap) { ProgramStartIsStart(a, id, cap); }
    }
  }

  /** A cancel that returned Ok for a job that is not running is final exactly when the job was not in the state
      "cancelled in memory, pending in the file"; from that state the program can come to start the job, whatever it
      requested. */
  lemma CancelIsFinalExactlyWhenDurable(w: World, id: nat, now: nat)
    requires Reachable(w) && AtPhase(w, Idle)
    requires id in w.holder.d.ledger.jobs && w.holder.d.ledger.jobs[id].state != Running
    ensures Enabled(w, OkCancel(w, id, now))
    ensures var v := Apply(w, OkCancel(w, id, now));
            && (NeverStartedAgain(v, id) <==> !OnlyCancelledInMemory(w, id))
            && StartsExactlyIf(v, id, OnlyCancelledInMemory(w, id))
  {
    hide Reachable, Inv, StartsExactlyIf;
    ReachableIsOk(w);
    var v := Apply(w, OkCancel(w, id, now));
    if OnlyCancelledInMemory(w, id) {
      assert v == w;
      StartsIfPending(w, id);
      StartingIsNotNever(v, id);
    } else {
      OkCancelIsDurable(w, id, now);
      StepKeeps(w, OkCancel(w, id, now));
      FinishedIsNeverStartedAgain(v, id);
      StartingIsNotNever(v, id);
      StartsOnlyIf(v, id);
    }
  }

  lemma StartingIsNotNever(w: World, id: nat)
    ensures !(CanStillStart(w, id) && NeverStartedAgain(w, id))
    ensures StartsExactlyIf(w, id, true) ==> !NeverStartedAgain(w, id)
  {
  }

  /** A cancellation acknowledged by a successful save: the job has no worker and never gets one. */
  lemma SavedCancellationIsFinal(w: World, id: nat)
    requires Reachable(w) && id in w.revoked
    ensures id !in w.spawns && NeverStartedAgain(w, id)
  {
    hide Reachable;
    ReachableIsOk(w);
    FinishedIsNeverStartedAgain(w, id);
  }

  // ----- A run in which it is not -----

  const CPU_REQUEST := Submission(["true"], 0, None, [], None, None, None)

  /** A first daemon, and a first submission. */
  function FirstSteps(devices: seq<Device>, spec: Submission, save: Save): seq<Step> {
    [Boot(devices, AllIdle(devices))] + EMPTY_TICK + [Step.Submit(0, spec, 0, save)]
  }

  /** The first save of the cancellation fails; the second request answers Ok. */
  const CANCEL_STEPS: seq<Step> := FirstSteps([], CPU_REQUEST, Saved) + [CancelPending(1, 0, Lost), CancelFinished(1)]

  lemma FirstJobIsSubmitted(devices: seq<Device>, spec: Submission, save: Save, cap: nat) returns (a: At)
    requires DistinctKeys(devices) && ValidRequest(spec) && Allocate(spec, devices, {}).Some?
    ensures Leads(BEFORE, FirstSteps(devices, spec, save), a, cap) && a == At(a.w, true, 0, false) && Inv(a.w)
    ensures var job := NewJob(1, 0, spec, 0);
            var ledger := if save.Saved? then Ledger(1, map[1 := job]) else Ledger(1, map[]);
            a.w == INITIAL.(
              holder := Serving(Daemon(ledger, devices, AllIdle(devices), {}, Idle, {})),
              durable := if save.Lost? then INITIAL.durable else Ledger(1, map[1 := job]),
              hist := if save.Lost? then map[] else map[1 := job],
              acks := if save.Saved? then [1] else [])
  {
    hide Leads, Inv, DistinctKeys, Allocate, Enabled, Apply;
    var ticked := FirstTick(devices, cap);
    var submit := Step.Submit(0, spec, 0, save);
    SubmitApplies(ticked.w, 0, spec, 0, save);
    LeadsNext(BEFORE, [Boot(devices, AllIdle(devices))] + EMPTY_TICK, ticked, submit, cap);
    a := Move(ticked, submit);
    IsOk(FirstSteps(devices, spec, save), a, cap);
    assert map[] + map[1 := NewJob(1, 0, spec, 0)] == map[1 := NewJob(1, 0, spec, 0)];
  }

  lemma FirstTick(devices: seq<Device>, cap: nat) returns (a: At)
    requires DistinctKeys(devices)
    ensures Leads(BEFORE, [Boot(devices, AllIdle(devices))] + EMPTY_TICK, a, cap)
    ensures a == At(INITIAL.(holder := Serving(Daemon(INITIAL.durable, devices, AllIdle(devices), {}, Idle, {}))),
                    true, 0, false)
  {
    hide Leads, DistinctKeys, Enabled, Apply;
    var boot := Boot(devices, AllIdle(devices));
    BootEffect(INITIAL, devices, AllIdle(devices));
    LeadsFirst(BEFORE, boot, cap);
    var booted := Move(BEFORE, boot);
    a := At(booted.w, true, 0, false);
    EmptyTick(booted, cap);
    LeadsFurther(BEFORE, [boot], booted, EMPTY_TICK, a, cap);
  }

  /** What the program reaches is reachable and satisfies the invariant. */
  lemma IsOk(steps: seq<Step>, a: At, cap: nat)
    requires Leads(BEFORE, steps, a, cap)
    ensures Reachable(a.w) && Inv(a.w)
  {
    hide Inv, Enabled, Apply, Leads;
    LeadsIsRun(BEFORE, steps, a, cap);
    ReachableIsOk(a.w);
  }

  lemma CancelIsLost(a: At, cap: nat) returns (b: At)
    requires AtPhase(a.w, Idle) && a.ticked && PendingIds(a.w.holder.d.ledger.jobs) == {1}
    requires a.w.durable == a.w.holder.d.ledger
    ensures Leads(a, [CancelPending(1, 0, Lost)], b, cap) && b == a.(w := b.w) && AtPhase(b.w, Idle)
    ensures 1 in b.w.holder.d.ledger.jobs && OnlyCancelledInMemory(b.w, 1)
    ensures b.w.holder.d.ledger.jobs[1].result == Some(Revocation(0))
    ensures b.w.spawns == a.w.spawns && b.w.files == a.w.files && b.w.durable == a.w.durable
  {
    hide Leads, Enabled, Apply;
    assert 1 in PendingIds(a.w.holder.d.ledger.jobs);
    CancelApplies(a.w, 1, 0, Lost);
    LeadsFirst(a, CancelPending(1, 0, Lost), cap);
    b := Move(a, CancelPending(1, 0, Lost));
  }

  /** The client has been shown a cancelled job, and the state file still says pending. */
  lemma CancelledInMemoryOnly(cap: nat) returns (a: At)
    ensures Leads(BEFORE, CANCEL_STEPS, a, cap) && a.ticked && Inv(a.w)
    ensures AtPhase(a.w, Idle) && 1 in a.w.holder.d.ledger.jobs && OnlyCancelledInMemory(a.w, 1)
    ensures a.w.holder.d.ledger.jobs[1].result == Some(Revocation(0))
    ensures a.w.spawns == multiset{} && a.w.files == map[]
    ensures PendingIds(a.w.durable.jobs) == {1} && a.w.durable.jobs[1].spec == CPU_REQUEST
  {
    hide Leads, Inv, Enabled, Apply;
    var first := FirstSteps([], CPU_REQUEST, Saved);
    var submitted := FirstJobIsSubmitted([], CPU_REQUEST, Saved, cap);
    a := CancelIsLost(submitted, cap);
    LeadsFurther(BEFORE, first, submitted, [CancelPending(1, 0, Lost)], a, cap);
    CancelFinishedEffect(a.w, 1);
    LeadsNext(BEFORE, first + [CancelPending(1, 0, Lost)], a, CancelFinished(1), cap);
    assert Move(a, CancelFinished(1)) == a;
    assert first + [CancelPending(1, 0, Lost)] + [CancelFinished(1)] == CANCEL_STEPS;
    IsOk(CANCEL_STEPS, a, cap);
  }

  /** A job whose cancellation was answered with Ok is started: the run above, continued by a restart. */
  lemma OkCancelledJobCanStart(cap: nat) returns (steps: seq<Step>, b: At)
    requires cap > 0
    ensures Leads(BEFORE, CANCEL_STEPS + steps, b, cap)
    ensures CANCEL_STEPS[|CANCEL_STEPS| - 1] == CancelFinished(1) && b.w.spawns[1] == 1
  {
    hide Leads, Inv;
    var a := CancelledInMemoryOnly(cap);
    var rest, end := RestartsStart(a, 1, cap);
    LeadsFurther(BEFORE, CANCEL_STEPS, a, rest, end, cap);
    steps, b := rest, end;
  }
}
