/** What each step of the machine does, field by field: each lemma opens one step, so that other proofs need not. */
module Effects {
  import opened Model
  import opened Allocator
  import opened Machine

  /** What a submission does to the parts of the world. */
  lemma SubmitEffect(w: World, job: Job, save: Save)
    requires MaySubmit(w, job.spec) && job == NewJob(w.holder.d.ledger.nextId + 1, job.owner, job.spec, job.submittedAt)
    ensures var step := Step.Submit(job.owner, job.spec, job.submittedAt, save);
            && Enabled(w, step)
            && var v, ledger := Apply(w, step), w.holder.d.ledger;
               var full := Ledger(job.id, ledger.jobs[job.id := job]);
               && v.holder == Serving(w.holder.d.(ledger := if save.Saved? then full else ledger.(nextId := job.id)))
               && v.durable == (if save.Lost? then w.durable else full)
               && v.files == w.files && v.workers == w.workers && v.exiting == w.exiting && v.orphans == w.orphans
               && v.acks == w.acks + (if save.Saved? then [job.id] else []) && v.spawns == w.spawns
  {
  }

  lemma SubmitApplies(w: World, owner: nat, spec: Submission, now: nat, save: Save)
    requires MaySubmit(w, spec)
    ensures var step := Step.Submit(owner, spec, now, save);
            Enabled(w, step) && Apply(w, step) == DoSubmit(w, owner, spec, now, save)
  {
  }

  lemma CancelApplies(w: World, id: nat, now: nat, save: Save)
    requires AtPhase(w, Idle) && HasJob(w, id, Pending)
    ensures var step := CancelPending(id, now, save); Enabled(w, step) && Apply(w, step) == DoCancel(w, id, now, save)
  {
  }

  lemma CancelFinishedEffect(w: World, id: nat)
    requires AtPhase(w, Idle) && id in w.holder.d.ledger.jobs && w.holder.d.ledger.jobs[id].state.Terminal()
    ensures Enabled(w, CancelFinished(id)) && Apply(w, CancelFinished(id)) == w
  {
  }

  lemma CancelEffect(w: World, job: Job, now: nat, save: Save)
    requires AtPhase(w, Idle) && HasJob(w, job.id, Pending) && w.holder.d.ledger.jobs[job.id] == job
    ensures var step := CancelPending(job.id, now, save);
            && Enabled(w, step)
            && var v := Apply(w, step);
               var ledger := w.holder.d.ledger.(jobs := w.holder.d.ledger.jobs[job.id := job.Finish(Revocation(now))]);
               && v.holder == Serving(w.holder.d.(ledger := ledger))
               && v.durable == (if save.Lost? then w.durable else ledger)
               && v.files == w.files && v.workers == w.workers && v.exiting == w.exiting && v.orphans == w.orphans
               && (save.Saved? ==> job.id in v.revoked)
  {
  }

  lemma CancelFileEffect(w: World, id: nat, left: Option<Ext>)
    requires AtPhase(w, Idle) && HasJob(w, id, Running) && left in {None, Some(TempFile), Some(CancelFile)}
    ensures Enabled(w, CancelRunning(id, left))
    ensures Apply(w, CancelRunning(id, left)) == w.(files := LeaveBehind(w.files, id, left, []))
  {
  }

  lemma PollEffect(w: World, id: nat, now: nat)
    requires CanPoll(w, id) && IsGone(w, id)
    ensures Enabled(w, PollDone(id, now)) && Apply(w, PollDone(id, now)) == DoPoll(w, id, now)
  {
  }

  lemma PollMissEffect(w: World, id: nat)
    requires CanPoll(w, id)
    ensures Enabled(w, PollOpens(id))
    ensures Apply(w, PollOpens(id)) == w.(files := Touch(w.files, FileName(id, LockFile), Marker))
    ensures Enabled(w, PollFails(id)) && Apply(w, PollFails(id)) == InPhase(w, Failing)
    ensures id in w.workers ==> Enabled(w, PollBusy(id)) && Apply(w, PollBusy(id)) == w
  {
  }

  lemma EndPollsEffect(w: World, save: Save)
    requires w.holder.Serving? && w.holder.d.phase.Polling?
    ensures Enabled(w, EndPolls(save)) && Apply(w, EndPolls(save)) == DoEndPolls(w, save)
  {
  }

  /** The three saves inside a tick. */
  lemma TickSaveEffect(w: World, step: Step, save: Save)
    requires w.holder.Serving?
    requires || (step == EndPolls(save) && w.holder.d.phase == Polling(true))
             || (step == Persist(save) && w.holder.d.phase.Granted?)
             || (step == RecordRejection(save) && w.holder.d.phase.Rejected?)
    ensures Enabled(w, step)
    ensures var v := Apply(w, step);
            && v.holder == Serving(w.holder.d.(phase :=
                 if !save.Saved? then Failing else if step.Persist? then Persisted(w.holder.d.phase.id) else Granting))
            && v.durable == (if save.Lost? then w.durable else w.holder.d.ledger)
            && v.files == w.files && v.workers == w.workers && v.exiting == w.exiting && v.orphans == w.orphans
            && v.spawns == w.spawns
    ensures step.Persist? ==> Apply(w, step) == SaveOrFail(w, save, Persisted(w.holder.d.phase.id))
  {
  }

  lemma BootEffect(w: World, devices: seq<Device>, status: map<Key, string>)
    requires w.holder.Nobody? && DistinctKeys(devices)
    ensures Enabled(w, Boot(devices, status))
    ensures Apply(w, Boot(devices, status)) == WithDaemon(w, Daemon(w.durable, devices, status, {}, Idle, {}))
  {
  }

  /** The holder of the daemon lock lets go of it. */
  lemma StopEffect(w: World, step: Step)
    requires (w.holder.Serving? && step == Crash) || (w.holder.Cleaner? && step == CleanerLeaves)
    ensures Enabled(w, step) && Apply(w, step) == w.(holder := Nobody)
  {
  }

  lemma PhaseEffect(w: World, step: Step, next: Phase)
    requires w.holder.Serving?
    requires || (step == BeginTick && w.holder.d.phase == Idle && next == Polling(false))
             || (step == EndPolls(Saved) && w.holder.d.phase == Polling(false) && next == Granting)
             || (step == EndTick && w.holder.d.phase == Granting && next == Idle)
    ensures Enabled(w, step) && Apply(w, step) == InPhase(w, next)
  {
  }

  lemma GrantEffect(w: World, id: nat, now: nat)
    requires CanGrant(w, id)
    ensures Enabled(w, Grant(id, now)) && Apply(w, Grant(id, now)) == DoGrant(w, id, now)
    ensures var v, d := Apply(w, Grant(id, now)), w.holder.d;
            var job := d.ledger.jobs[id].Start(Allocate(d.ledger.jobs[id].spec, d.devices, Reserved(d)).value, now);
            && v.holder == Serving(d.(ledger := d.ledger.(jobs := d.ledger.jobs[id := job]), phase := Granted(id)))
            && v.durable == w.durable && v.files == w.files
            && v.workers == w.workers && v.exiting == w.exiting && v.orphans == w.orphans && v.spawns == w.spawns
  {
  }

  lemma LockEffect(w: World)
    requires Attempting(w) && w.holder.d.phase.Persisted? && w.holder.d.phase.id !in w.workers
    ensures Enabled(w, TakeLock)
    ensures var id := w.holder.d.phase.id;
            Apply(w, TakeLock) == InPhase(w, Locked(id)).(files := Touch(w.files, FileName(id, LockFile), Marker))
  {
  }

  lemma DescribeEffect(w: World)
    requires Attempting(w) && w.holder.d.phase.Locked?
    ensures Enabled(w, Describe)
    ensures var id := w.holder.d.phase.id;
            Apply(w, Describe) == InPhase(w, Described(id)).(
              files := w.files[FileName(id, JobFile) := Description(w.holder.d.ledger.jobs[id].devices)])
  {
  }

  lemma SpawnEffect(w: World)
    requires CanSpawn(w)
    ensures Enabled(w, Spawn) && Apply(w, Spawn) == DoSpawn(w)
    ensures var id, v := w.holder.d.phase.id, Apply(w, Spawn);
            && v.holder == Serving(w.holder.d.(phase := Granting, children := w.holder.d.children + {id}))
            && v.durable == w.durable && v.hist == w.hist && v.exiting == w.exiting && v.orphans == w.orphans
            && v.files == Touch(w.files, FileName(id, LogFile), Text([]))
            && v.workers == w.workers[id := Worker(DescribedDevices(w).value, false)]
            && v.spawns == w.spawns + multiset{id}
  {
  }

  lemma StartFailsEffect(w: World, message: string, now: nat, left: Option<Ext>)
    requires Attempting(w) && left in MayLeave(w.holder.d.phase)
    ensures Enabled(w, StartFails(message, now, left))
    ensures var d, v := w.holder.d, Apply(w, StartFails(message, now, left));
            var job := d.ledger.jobs[d.phase.id];
            var ledger := d.ledger.(jobs := d.ledger.jobs[d.phase.id := job.Finish(Failure(message, now))]);
            && v.holder == Serving(d.(ledger := ledger, phase := Rejected(d.phase.id)))
            && v.files == LeaveBehind(w.files, d.phase.id, left, job.devices)
            && v.workers == w.workers && v.exiting == w.exiting && v.orphans == w.orphans && v.spawns == w.spawns
            && v.durable == w.durable
  {
  }

  lemma CleanupEffect(w: World, now: nat, expired: set<nat>)
    requires AtPhase(w, Idle) && expired == ExpiredIds(w.holder.d.ledger.jobs, now) && expired != {}
    ensures Enabled(w, BeginCleanup(now))
    ensures Apply(w, BeginCleanup(now)) == InPhase(w, Cleaning(now, expired, FilesOf(w.files, expired)))
  {
  }

  lemma RemoveEffect(w: World, name: FileName)
    requires w.holder.Serving? && w.holder.d.phase.Cleaning? && name in w.holder.d.phase.todo
    ensures Enabled(w, RemoveFile(name)) && Apply(w, RemoveFile(name)) == DoRemove(w, name)
    ensures Enabled(w, AbortCleanup) && Apply(w, AbortCleanup) == InPhase(w, Idle)
  {
  }

  lemma EndCleanupEffect(w: World, save: Save)
    requires w.holder.Serving? && w.holder.d.phase.Cleaning? && w.holder.d.phase.todo == {}
    ensures Enabled(w, EndCleanup(save))
    ensures var v, d := Apply(w, EndCleanup(save)), w.holder.d;
            var kept := d.ledger.(jobs := Without(d.ledger.jobs, d.phase.expired));
            && v.holder == Serving(d.(ledger := if save.Saved? then kept else d.ledger, phase := Idle))
            && v.durable == (if save.Lost? then w.durable else kept)
            && v.files == w.files && v.workers == w.workers && v.exiting == w.exiting && v.orphans == w.orphans
  {
  }

  lemma ReleaseEffect(w: World, id: nat, temp: bool, ending: Ending)
    requires id in w.workers
    ensures Enabled(w, WorkerReleases(id, temp, ending))
    ensures Apply(w, WorkerReleases(id, temp, ending)) == DoWorkerReleases(w, id, temp, ending)
  {
  }

  lemma ComplainEffect(w: World, id: nat, bytes: seq<Byte>)
    requires id in w.exiting && w.exiting[id].WithError?
    ensures Enabled(w, WorkerComplains(id, bytes))
    ensures Apply(w, WorkerComplains(id, bytes)) == w.(files := AppendLog(w.files, id, bytes))
  {
  }

  lemma DieEffect(w: World, id: nat)
    requires id in w.workers && !w.workers[id].reported
    ensures Enabled(w, WorkerDies(id)) && Apply(w, WorkerDies(id)) == DoWorkerDies(w, id)
  {
  }

  lemma OrphansLogEffect(w: World, id: nat, bytes: seq<Byte>)
    requires id in w.orphans
    ensures Enabled(w, OrphansLog(id, bytes))
    ensures Apply(w, OrphansLog(id, bytes)) == w.(files := AppendLog(w.files, id, bytes))
  {
  }

  lemma OrphansEndEffect(w: World, id: nat)
    requires id in w.orphans
    ensures Enabled(w, OrphansEnd(id)) && Apply(w, OrphansEnd(id)) == w.(orphans := w.orphans - {id})
  {
  }

  lemma ExitEffect(w: World, id: nat)
    requires id in w.exiting
    ensures Enabled(w, WorkerExits(id)) && Apply(w, WorkerExits(id)) == w.(exiting := w.exiting - {id})
  {
  }

  lemma ReportEffect(w: World, id: nat, outcome: Outcome)
    requires MayReport(w, id, outcome)
    ensures Enabled(w, WorkerReports(id, outcome))
    ensures Apply(w, WorkerReports(id, outcome)) == DoWorkerReports(w, id, outcome)
  {
  }

  lemma LogEffect(w: World, id: nat, bytes: seq<Byte>)
    requires id in w.workers && !w.workers[id].reported
    ensures Enabled(w, WorkerLogs(id, bytes)) && Apply(w, WorkerLogs(id, bytes)) == DoWorkerLogs(w, id, bytes)
  {
  }

  lemma EnterEffect(w: World)
    requires w.holder.Nobody?
    ensures Enabled(w, CleanerEnters) && Apply(w, CleanerEnters) == w.(holder := Cleaner(false))
  {
  }

  lemma CheckEffect(w: World)
    requires w.holder == Cleaner(false)
    ensures Enabled(w, CleanerChecks)
    ensures Apply(w, CleanerChecks) == w.(holder := if NoneRunning(w.durable.jobs) then Cleaner(true) else Nobody)
  {
  }

  lemma RemoveLogEffect(w: World, name: FileName)
    requires w.holder == Cleaner(true) && name.ext == LogFile
    ensures Enabled(w, CleanerRemovesLog(name.id))
    ensures Apply(w, CleanerRemovesLog(name.id)) == w.(files := w.files - {name})
  {
  }
}
