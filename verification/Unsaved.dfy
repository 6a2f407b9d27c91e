/** What becomes of a submission whose save failed: the client is told of an error, and the job may run all the same. */
module Unsaved {
  import opened Model
  import opened Cancellation
  import opened Effects
  import opened Invariants
  import opened Machine
  import opened Preservation
  import opened Restarts
  import opened Schedules

  /** The job is neither in memory nor in the file. */
  predicate Absent(w: World, id: nat) {
    id !in w.durable.jobs && (w.holder.Serving? ==> id !in w.holder.d.ledger.jobs)
  }

  /** The job is still absent, and has had no further worker. */
  predicate StaysAbsent(w: World, u: World, id: nat) {
    Absent(u, id) && u.spawns[id] == w.spawns[id]
  }

  lemma AbsentStays(w: World, step: Step, id: nat)
    requires Enabled(w, step) && !step.Submit? && Absent(w, id)
    ensures StaysAbsent(w, Apply(w, step), id)
  {
    hide Enabled, Apply, StaysAbsent;
    if IsPolling(step) {
      AbsentInPolls(w, step, id);
    } else if IsStarting(step) {
      AbsentInStarts(w, step, id);
    } else {
      AbsentInOthers(w, step, id);
    }
  }

  lemma AbsentInPolls(w: World, step: Step, id: nat)
    requires Enabled(w, step) && IsPolling(step) && Absent(w, id)
    ensures StaysAbsent(w, Apply(w, step), id)
  {
    if step.PollDone? {
      hide Enabled, Apply, StaysAbsent;
      AbsentAfterPoll(w, step.id, step.now, id);
    } else if step.EndPolls? {
      assert Apply(w, step) == DoEndPolls(w, step.save);
      hide Enabled, Apply, StaysAbsent;
      AbsentAfterPolls(w, step.save, id);
    }
  }

  lemma AbsentAfterPoll(w: World, polled: nat, now: nat, id: nat)
    requires Enabled(w, PollDone(polled, now)) && Absent(w, id)
    ensures StaysAbsent(w, Apply(w, PollDone(polled, now)), id)
  {
  }

  lemma AbsentAfterPolls(w: World, save: Save, id: nat)
    requires w.holder.Serving? && w.holder.d.phase.Polling? && Absent(w, id)
    ensures StaysAbsent(w, DoEndPolls(w, save), id)
  {
  }

  lemma AbsentAfterSave(w: World, save: Save, next: Phase, id: nat)
    requires w.holder.Serving? && Absent(w, id)
    ensures StaysAbsent(w, SaveOrFail(w, save, next), id)
  {
  }

  lemma AbsentInStarts(w: World, step: Step, id: nat)
    requires Enabled(w, step) && IsStarting(step) && Absent(w, id)
    ensures StaysAbsent(w, Apply(w, step), id)
  {
    if step.Persist? {
      assert Apply(w, step) == SaveOrFail(w, step.save, Persisted(w.holder.d.phase.id));
      hide Enabled, Apply, StaysAbsent;
      AbsentAfterSave(w, step.save, Persisted(w.holder.d.phase.id), id);
    } else if step.RecordRejection? {
      assert Apply(w, step) == SaveOrFail(w, step.save, Granting);
      hide Enabled, Apply, StaysAbsent;
      AbsentAfterSave(w, step.save, Granting, id);
    } else {
      hide Enabled, Apply, StaysAbsent;
      AbsentInStart(w, step, id);
    }
  }

  lemma AbsentInStart(w: World, step: Step, id: nat)
    requires Enabled(w, step) && IsStarting(step) && !step.Persist? && !step.RecordRejection? && Absent(w, id)
    ensures StaysAbsent(w, Apply(w, step), id)
  {
    match step
    case Grant(granted, now) => assert Apply(w, step) == DoGrant(w, granted, now);
    case Spawn => assert Apply(w, step) == DoSpawn(w);
    case StartFails(message, now, left) => assert Apply(w, step) == DoStartFails(w, message, now, left);
    case _ =>
  }

  lemma AbsentInOthers(w: World, step: Step, id: nat)
    requires Enabled(w, step) && !IsPolling(step) && !IsStarting(step) && !step.Submit? && Absent(w, id)
    ensures StaysAbsent(w, Apply(w, step), id)
  {
  }

  lemma {:induction false} AbsentIsNotStarted(w: World, steps: seq<Step>, id: nat)
    requires IsRun(w, steps) && NoSubmission(steps) && Absent(w, id)
    ensures After(w, steps).spawns[id] == w.spawns[id]
    decreases |steps|
  {
    hide Enabled, Apply, Absent;
    if steps != [] {
      assert steps[0] in steps;
      AbsentStays(w, steps[0], id);
      assert forall step | step in steps[1..] :: step in steps;
      AbsentIsNotStarted(Apply(w, steps[0]), steps[1..], id);
    }
  }

  /** A job that memory does not know can still run, without being submitted again, exactly when the state file holds
      it. */
  lemma ForgottenJobRunsExactlyWhenInFile(w: World, id: nat)
    requires Reachable(w) && AtPhase(w, Idle) && id !in w.holder.d.ledger.jobs
    ensures StartsExactlyIf(w, id, id in w.durable.jobs)
  {
    hide Reachable, Inv, Enabled, Apply, StartsExactlyIf;
    ReachableIsOk(w);
    if id in w.durable.jobs {
      ForgottenIsPending(w, id);
      StartsIfPending(w, id);
    } else {
      forall steps: seq<Step> | IsRun(w, steps) && NoSubmission(steps)
        ensures After(w, steps).spawns[id] == w.spawns[id]
      {
        AbsentIsNotStarted(w, steps, id);
      }
      StartsOnlyIf(w, id);
    }
  }

  lemma ForgottenIsPending(w: World, id: nat)
    requires Inv(w) && AtPhase(w, Idle) && id !in w.holder.d.ledger.jobs && id in w.durable.jobs
    ensures w.durable.jobs[id].state == Pending
  {
    hide JobsOk, HistoryOk, PastOk, AcksOk, WorkersOk, FilesOk, Ahead, Covers, SpawnedIsKept;
  }

  /** A submission answered with an error can still run exactly when its save failed after the rename. The next save
      takes it out of the file again; until then a restart starts it. */
  lemma RefusedSubmissionRunsExactlyWhenLanded(w: World, owner: nat, spec: Submission, now: nat, save: Save)
    requires Reachable(w) && MaySubmit(w, spec) && !save.Saved?
    ensures var v := Apply(w, Step.Submit(owner, spec, now, save));
            && v.acks == w.acks
            && StartsExactlyIf(v, w.holder.d.ledger.nextId + 1, save.Landed?)
  {
    hide Reachable, Inv, Enabled, Apply, StartsExactlyIf;
    var id := w.holder.d.ledger.nextId + 1;
    var job := NewJob(id, owner, spec, now);
    var step := Step.Submit(owner, spec, now, save);
    ReachableIsOk(w);
    NewIdIsUnknown(w);
    SubmitEffect(w, job, save);
    NextIsReachable(w, step);
    ForgottenJobRunsExactlyWhenInFile(Apply(w, step), id);
  }

  lemma NewIdIsUnknown(w: World)
    requires Inv(w) && AtPhase(w, Idle)
    ensures forall id | id in w.durable.jobs || id in w.holder.d.ledger.jobs :: id <= w.holder.d.ledger.nextId
  {
    hide PastOk, AcksOk, WorkersOk, FilesOk, Covers, SpawnedIsKept, Agree;
  }

  /** A run in which it does: the save of a first submission fails after the rename, and the next daemon runs it. */
  lemma RefusedSubmissionCanRun(cap: nat) returns (a: At, steps: seq<Step>, b: At)
    requires cap > 0
    ensures Leads(BEFORE, FirstSteps([], CPU_REQUEST, Landed), a, cap)
    ensures a.w.acks == [] && AtPhase(a.w, Idle) && a.w.holder.d.ledger.jobs == map[]
    ensures Leads(a, steps, b, cap) && NoSubmission(steps) && b.w.spawns[1] == 1
  {
    hide Leads, Inv;
    a := FirstJobIsSubmitted([], CPU_REQUEST, Landed, cap);
    var rest, end := RestartsStart(a, 1, cap);
    steps, b := rest, end;
  }
}
