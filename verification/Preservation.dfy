/** Every step of the machine keeps the invariant. */
module Preservation {
  import opened Model
  import opened Allocator
  import opened Machine
  import opened Invariants

  // ----- Saving a ledger -----

  /** A save moves no job back and no started job aside. */
  lemma SaveRespectsStarted(w: World, ledger: Ledger)
    requires HistoryOk(w.durable, w.hist) && Ahead(w.durable, w.hist, ledger)
    ensures forall id | id in w.durable.jobs && id in ledger.jobs ::
              Advances(w.durable.jobs[id], ledger.jobs[id])
  {
  }

  lemma SaveKeepsJobs(w: World, ledger: Ledger)
    requires DurableOk(w) && Savable(w, ledger)
    ensures JobsOk(w.spawns, w.reports, w.hist + ledger.jobs, ledger.nextId)
    ensures HistoryOk(ledger, w.hist + ledger.jobs)
  {
  }

  lemma SaveKeepsPast(w: World, ledger: Ledger)
    requires DurableOk(w) && Ahead(w.durable, w.hist, ledger) && Covers(ledger.jobs, w.workers, w.files, w.acks, w.hist)
    ensures PastOk(w.hist + ledger.jobs, w.spawns, w.reports, w.revoked)
    ensures AcksOk(w.acks, ledger, w.hist + ledger.jobs)
  {
  }

  lemma SaveKeepsWorkers(w: World, ledger: Ledger)
    requires DurableOk(w) && Savable(w, ledger)
    ensures WorkersOk(w.workers, ledger.jobs, w.spawns, w.reports)
  {
    SaveRespectsStarted(w, ledger);
  }

  lemma SaveKeepsFiles(w: World, ledger: Ledger)
    requires DurableOk(w) && Savable(w, ledger)
    ensures FilesOk(w.files, ledger.jobs, w.reports)
  {
    hide PastOk, AcksOk, WorkersOk, SpawnedIsKept;
    SaveRespectsStarted(w, ledger);
    RunningStays(w, ledger);
    hide Ahead;
    assert forall f | f in w.files :: f.id in ledger.jobs;
  }

  lemma RunningStays(w: World, ledger: Ledger)
    requires DurableOk(w) && Savable(w, ledger)
    ensures forall id | id in w.reports && id in ledger.jobs && ledger.jobs[id].state == Running ::
              id in w.durable.jobs && w.durable.jobs[id].state == Running
  {
    SaveRespectsStarted(w, ledger);
    assert forall id | id in w.reports :: id in w.spawns && w.hist[id].startedAt.Some?;
    assert JobsOk(w.spawns, w.reports, w.hist, w.durable.nextId);
  }

  lemma SaveKeepsDurable(w: World, ledger: Ledger, save: Save)
    requires DurableOk(w) && Savable(w, ledger)
    ensures DurableOk(Write(w, ledger, ledger, save))
  {
    SaveKeepsJobs(w, ledger);
    SaveKeepsPast(w, ledger);
    SaveKeepsWorkers(w, ledger);
    SaveKeepsFiles(w, ledger);
  }

  /** After a successful save memory and file are equal. */
  lemma SaveSettles(w: World, ledger: Ledger)
    requires DurableOk(w) && Savable(w, ledger)
    ensures var v := Write(w, ledger, ledger, Saved);
            Savable(v, ledger) && Agree(v.durable.jobs, v.hist, ledger.jobs, None, false)
  {
  }

  lemma SavedServes(w: World, d: Daemon, ledger: Ledger, phase: Phase)
    requires DurableOk(w) && Savable(w, ledger) && DistinctKeys(d.devices) && (phase.Idle? || phase.Granting?)
    ensures Inv(WithDaemon(Write(w, ledger, ledger, Saved), d.(ledger := ledger, phase := phase)))
  {
    SaveKeepsDurable(w, ledger, Saved);
    SaveSettles(w, ledger);
  }

  lemma SaveFails(w: World, d: Daemon, ledger: Ledger, save: Save)
    requires DurableOk(w) && Savable(w, ledger)
    ensures Inv(WithDaemon(Write(w, ledger, ledger, save), d.(phase := Failing)))
  {
    SaveKeepsDurable(w, ledger, save);
  }

  // ----- Changing one job of a ledger -----

  lemma JobsWith(spawns: multiset<nat>, reports: map<nat, Outcome>, jobs: map<nat, Job>, nextId: nat, nextId': nat,
                 job: Job)
    requires JobsOk(spawns, reports, jobs, nextId) && nextId <= nextId'
    requires 0 < job.id <= nextId' && WellFormed(job) && Exact(spawns, reports, job)
    ensures JobsOk(spawns, reports, jobs[job.id := job], nextId')
  {
  }

  ghost predicate Apart(jobs: map<nat, Job>, job: Job) {
    job.state == Running ==> forall id | id in jobs && id != job.id && jobs[id].state == Running ::
      Keys(jobs[id].devices) !! Keys(job.devices)
  }

  lemma AheadWith(durable: Ledger, hist: map<nat, Job>, ledger: Ledger, nextId: nat, job: Job)
    requires Ahead(durable, hist, ledger) && ledger.nextId <= nextId <= MAX_ID && Apart(ledger.jobs, job)
    requires if job.id in hist then Advances(hist[job.id], job) else job.state == Pending
    ensures Ahead(durable, hist, Ledger(nextId, ledger.jobs[job.id := job]))
  {
  }

  lemma CoversWith(w: World, jobs: map<nat, Job>, job: Job)
    requires Covers(jobs, w.workers, w.files, w.acks, w.hist) && (job.id in w.workers ==> job.state == Running)
    ensures Covers(jobs[job.id := job], w.workers, w.files, w.acks, w.hist)
  {
  }

  lemma SetJobSavable(w: World, ledger: Ledger, nextId: nat, job: Job)
    requires Savable(w, ledger) && ledger.nextId <= nextId <= MAX_ID
    requires 0 < job.id <= nextId && WellFormed(job) && Exact(w.spawns, w.reports, job) && Apart(ledger.jobs, job)
    requires if job.id in w.hist then Advances(w.hist[job.id], job) else job.state == Pending
    requires job.id in w.workers ==> job.state == Running
    requires job.state == Running && job.id in w.spawns ==> job.id in w.durable.jobs
    ensures Savable(w, Ledger(nextId, ledger.jobs[job.id := job]))
  {
    JobsWith(w.spawns, w.reports, ledger.jobs, ledger.nextId, nextId, job);
    AheadWith(w.durable, w.hist, ledger, nextId, job);
    CoversWith(w, ledger.jobs, job);
  }

  // ----- Adding a file -----

  ghost predicate MayAdd(w: World, name: FileName) {
    && name.id in w.durable.jobs && w.durable.jobs[name.id].startedAt.Some?
    && name.ext != ResultFile
    && (w.holder.Serving? && !w.holder.d.phase.Failing? ==>
          && name.id in w.holder.d.ledger.jobs
          && (w.holder.d.phase.Described? ==> name != FileName(w.holder.d.phase.id, JobFile))
          && (w.holder.d.phase.Cleaning? ==> name.id !in w.holder.d.phase.expired))
  }

  lemma FilesWith(files: Files, durable: map<nat, Job>, reports: map<nat, Outcome>, name: FileName, content: Content)
    requires FilesOk(files, durable, reports) && name.id in durable && durable[name.id].startedAt.Some?
    requires name.ext != ResultFile
    ensures FilesOk(files[name := content], durable, reports)
  {
  }

  lemma AddFileKeeps(w: World, name: FileName, content: Content)
    requires Inv(w) && MayAdd(w, name)
    ensures Inv(w.(files := w.files[name := content]))
  {
    FilesWith(w.files, w.durable.jobs, w.reports, name, content);
    if w.holder.Serving? && !w.holder.d.phase.Failing? {
      AddFileKeepsMemory(w, w.holder.d, name, content);
    }
  }

  lemma AddFileKeepsMemory(w: World, d: Daemon, name: FileName, content: Content)
    requires MemoryOk(w, d) && w.holder == Serving(d) && !d.phase.Failing? && MayAdd(w, name)
    ensures MemoryOk(w.(files := w.files[name := content]), d)
  {
    hide JobsOk, Ahead, SpawnedIsKept, Agree;
    CoversFile(w, d.ledger.jobs, name, content);
  }

  lemma CoversFile(w: World, jobs: map<nat, Job>, name: FileName, content: Content)
    requires Covers(jobs, w.workers, w.files, w.acks, w.hist) && name.id in jobs
    ensures Covers(jobs, w.workers, w.files[name := content], w.acks, w.hist)
  {
  }

  lemma TouchKeeps(w: World, name: FileName, content: Content)
    requires Inv(w) && MayAdd(w, name)
    ensures Inv(w.(files := Touch(w.files, name, content)))
  {
    AddFileKeeps(w, name, content);
  }

  /** A job running in memory with no grant open is the same in the file. */
  lemma RunningIsDurable(w: World, id: nat)
    requires Inv(w) && HasJob(w, id, Running) && !w.holder.d.phase.Failing? && w.holder.d.phase != Granted(id)
    ensures id in w.durable.jobs && w.durable.jobs[id] == w.holder.d.ledger.jobs[id]
    ensures w.durable.jobs[id].startedAt.Some?
  {
    hide HistoryOk, PastOk, AcksOk, WorkersOk, FilesOk, Ahead, Covers, SpawnedIsKept;
    var d := w.holder.d;
    assert Settled(w.durable.jobs, w.hist, d.ledger.jobs[id], d.phase.Polling? && d.phase.changed);
    assert WellFormed(d.ledger.jobs[id]);
  }

  lemma RunningJobMayAdd(w: World, id: nat, ext: Ext)
    requires Inv(w) && HasJob(w, id, Running) && !w.holder.d.phase.Failing? && w.holder.d.phase != Granted(id)
    requires ext != ResultFile && ext != JobFile
    ensures MayAdd(w, FileName(id, ext))
  {
    hide JobsOk, HistoryOk, PastOk, AcksOk, WorkersOk, FilesOk, Ahead, Covers, SpawnedIsKept, Agree;
    RunningIsDurable(w, id);
  }

  lemma WorkerIsDurable(w: World, id: nat)
    requires DurableOk(w) && id in w.workers
    ensures id in w.durable.jobs && w.durable.jobs[id].state == Running && w.durable.jobs[id].startedAt.Some?
  {
    hide PastOk, AcksOk, FilesOk;
    assert WellFormed(w.hist[id]);
  }

  lemma WorkerMayAdd(w: World, id: nat, ext: Ext)
    requires Inv(w) && id in w.workers && ext != ResultFile && ext != JobFile
    ensures MayAdd(w, FileName(id, ext))
  {
    hide JobsOk, HistoryOk, PastOk, AcksOk, WorkersOk, FilesOk, Ahead, SpawnedIsKept, Agree;
    WorkerIsDurable(w, id);
  }

  // ----- Steps of the workers and of the clean command -----

  /** Writing to a log, by a live worker or by one that is exiting, adds no file and changes no other. */
  lemma AppendLogKeeps(w: World, id: nat, bytes: seq<Byte>)
    requires Inv(w)
    ensures Inv(w.(files := AppendLog(w.files, id, bytes)))
  {
    hide JobsOk, HistoryOk, PastOk, AcksOk, WorkersOk, Ahead, SpawnedIsKept, Agree;
  }

  lemma WorkerGoneKeeps(w: World, id: nat)
    requires Inv(w)
    ensures Inv(w.(workers := w.workers - {id}))
  {
    hide JobsOk, HistoryOk, PastOk, AcksOk, WorkersOk, FilesOk, Ahead, Covers, SpawnedIsKept, Agree;
    WorkersWithout(w, w.workers - {id});
    if w.holder.Serving? && !w.holder.d.phase.Failing? {
      CoversWithout(w, w.holder.d.ledger.jobs, w.workers - {id});
    }
  }

  lemma WorkersWithout(w: World, workers: map<nat, Worker>)
    requires WorkersOk(w.workers, w.durable.jobs, w.spawns, w.reports)
    requires forall id | id in workers :: id in w.workers && workers[id] == w.workers[id]
    ensures WorkersOk(workers, w.durable.jobs, w.spawns, w.reports)
  {
  }

  lemma CoversWithout(w: World, jobs: map<nat, Job>, workers: map<nat, Worker>)
    requires Covers(jobs, w.workers, w.files, w.acks, w.hist)
    requires forall id | id in workers :: id in w.workers
    ensures Covers(jobs, workers, w.files, w.acks, w.hist)
  {
  }

  lemma WorkerReleasesKeeps(w: World, id: nat, temp: bool, ending: Ending)
    requires Inv(w) && id in w.workers
    ensures Inv(DoWorkerReleases(w, id, temp, ending))
  {
    hide JobsOk, HistoryOk, PastOk, AcksOk, WorkersOk, FilesOk, Ahead, Covers, SpawnedIsKept, Agree;
    WorkerMayAdd(w, id, TempFile);
    AddFileKeeps(w, FileName(id, TempFile), Marker);
    var v := if temp then w.(files := w.files[FileName(id, TempFile) := Marker]) else w;
    WorkerGoneKeeps(v, id);
    LooseIsFree(v.(workers := v.workers - {id}), v.exiting[id := ending], v.orphans);
  }

  lemma WorkerDiesKeeps(w: World, id: nat)
    requires Inv(w) && id in w.workers
    ensures Inv(DoWorkerDies(w, id))
  {
    hide Inv;
    WorkerGoneKeeps(w, id);
    LooseIsFree(w.(workers := w.workers - {id}), w.exiting, w.orphans[id := w.workers[id].devices]);
  }

  /** The invariant does not depend on processes without a lock. */
  lemma LooseIsFree(w: World, exiting: map<nat, Ending>, orphans: map<nat, seq<Device>>)
    requires Inv(w)
    ensures Inv(w.(exiting := exiting, orphans := orphans))
  {
    hide JobsOk, HistoryOk, PastOk, AcksOk, WorkersOk, FilesOk, Ahead, Covers, SpawnedIsKept, Agree;
  }

  /** A new report concerns a job that is durably running and running in memory, so no recorded result is touched. */
  lemma ReportKeepsJobs(w: World, id: nat, outcome: Outcome, jobs: map<nat, Job>, nextId: nat)
    requires JobsOk(w.spawns, w.reports, jobs, nextId) && id in jobs && jobs[id].state == Running
    ensures JobsOk(w.spawns, w.reports[id := outcome], jobs, nextId)
  {
  }

  lemma ReportKeepsFiles(w: World, id: nat, outcome: Outcome)
    requires DurableOk(w) && id in w.workers
    ensures FilesOk(w.files[FileName(id, ResultFile) := Report(outcome)], w.durable.jobs, w.reports[id := outcome])
  {
    hide PastOk, AcksOk, HistoryOk, JobsOk;
    WorkerIsDurable(w, id);
  }

  lemma ReportKeepsPast(w: World, id: nat, outcome: Outcome)
    requires DurableOk(w) && MayReport(w, id, outcome)
    ensures var v := DoWorkerReports(w, id, outcome);
            PastOk(v.hist, v.spawns, v.reports, v.revoked) && WorkersOk(v.workers, v.durable.jobs, v.spawns, v.reports)
  {
    hide JobsOk, HistoryOk, AcksOk, FilesOk;
  }

  lemma ReportKeepsDurable(w: World, id: nat, outcome: Outcome)
    requires DurableOk(w) && MayReport(w, id, outcome)
    ensures DurableOk(DoWorkerReports(w, id, outcome))
  {
    hide FilesOk, PastOk, AcksOk;
    ReportKeepsJobs(w, id, outcome, w.hist, w.durable.nextId);
    ReportKeepsFiles(w, id, outcome);
    ReportKeepsPast(w, id, outcome);
  }

  lemma ReportKeepsCover(w: World, id: nat, outcome: Outcome, jobs: map<nat, Job>)
    requires MayReport(w, id, outcome) && Covers(jobs, w.workers, w.files, w.acks, w.hist)
    ensures var v := DoWorkerReports(w, id, outcome); Covers(jobs, v.workers, v.files, v.acks, v.hist)
  {
  }

  lemma ReportKeepsMemory(w: World, id: nat, outcome: Outcome, d: Daemon)
    requires DurableOk(w) && MemoryOk(w, d) && MayReport(w, id, outcome)
    ensures MemoryOk(DoWorkerReports(w, id, outcome), d)
  {
    hide HistoryOk, PastOk, AcksOk, FilesOk, Ahead, SpawnedIsKept, Agree;
    ReportKeepsJobs(w, id, outcome, d.ledger.jobs, d.ledger.nextId);
    ReportKeepsCover(w, id, outcome, d.ledger.jobs);
    ReportKeepsAttempt(w, id, outcome, d);
  }

  lemma ReportKeepsAttempt(w: World, id: nat, outcome: Outcome, d: Daemon)
    requires AttemptOk(w, d) && MayReport(w, id, outcome)
    requires id in d.ledger.jobs && d.ledger.jobs[id].state == Running
    ensures AttemptOk(DoWorkerReports(w, id, outcome), d)
  {
  }

  lemma WorkerReportsKeeps(w: World, id: nat, outcome: Outcome)
    requires Inv(w) && MayReport(w, id, outcome)
    ensures Inv(DoWorkerReports(w, id, outcome))
  {
    hide JobsOk, HistoryOk, PastOk, AcksOk, WorkersOk, FilesOk, Ahead, Covers, SpawnedIsKept, Agree;
    ReportKeepsDurable(w, id, outcome);
    if w.holder.Serving? && !w.holder.d.phase.Failing? { ReportKeepsMemory(w, id, outcome, w.holder.d); }
  }

  lemma CleanerRemovesLogKeeps(w: World, id: nat)
    requires Inv(w) && w.holder.Cleaner?
    ensures Inv(w.(files := w.files - {FileName(id, LogFile)}))
  {
  }

  // ----- Client requests -----

  lemma CancelRunningKeeps(w: World, id: nat, left: Option<Ext>)
    requires Inv(w) && AtPhase(w, Idle) && HasJob(w, id, Running) && left in {None, Some(TempFile), Some(CancelFile)}
    ensures Inv(w.(files := LeaveBehind(w.files, id, left, [])))
  {
    hide JobsOk, HistoryOk, PastOk, AcksOk, WorkersOk, FilesOk, Ahead, Covers, SpawnedIsKept, Agree;
    RunningJobMayAdd(w, id, TempFile);
    RunningJobMayAdd(w, id, CancelFile);
    AddFileKeeps(w, FileName(id, TempFile), Marker);
    AddFileKeeps(w, FileName(id, CancelFile), Marker);
  }

  /** The ledger that submit tries to save. */
  function Submitted(ledger: Ledger, owner: nat, spec: Submission, now: nat): Ledger {
    Ledger(ledger.nextId + 1, ledger.jobs[ledger.nextId + 1 := NewJob(ledger.nextId + 1, owner, spec, now)])
  }

  lemma SubmittedIsSavable(w: World, d: Daemon, owner: nat, spec: Submission, now: nat)
    requires DurableOk(w) && MemoryOk(w, d) && d.ledger.nextId < MAX_ID && ValidRequest(spec)
    ensures Savable(w, Submitted(d.ledger, owner, spec, now))
  {
    hide JobsOk, HistoryOk, PastOk, AcksOk, WorkersOk, FilesOk, Ahead, Covers, SpawnedIsKept, Agree;
    var id := d.ledger.nextId + 1;
    NewIdIsNew(w, d);
    SetJobSavable(w, d.ledger, id, NewJob(id, owner, spec, now));
  }

  lemma AcksWith(acks: seq<nat>, durable: Ledger, hist: map<nat, Job>, id: nat)
    requires AcksOk(acks, durable, hist) && id == durable.nextId && id in durable.jobs && id in hist
    requires forall i | 0 <= i < |acks| :: acks[i] < id
    ensures AcksOk(acks + [id], durable, hist)
  {
  }

  lemma CoversAcked(w: World, jobs: map<nat, Job>, id: nat)
    requires Covers(jobs, w.workers, w.files, w.acks, w.hist) && id in jobs
    ensures Covers(jobs, w.workers, w.files, w.acks + [id], w.hist)
  {
  }

  lemma DurableIsHistory(w: World)
    requires HistoryOk(w.durable, w.hist)
    ensures forall id | id in w.durable.jobs :: id in w.hist && w.hist[id] == w.durable.jobs[id]
  {
  }

  lemma AcknowledgeKeeps(v: World, id: nat)
    requires Inv(v) && AtPhase(v, Idle) && id in v.durable.jobs && id in v.holder.d.ledger.jobs
    requires v.durable.nextId == id && forall i | 0 <= i < |v.acks| :: v.acks[i] < id
    ensures Inv(v.(acks := v.acks + [id]))
  {
    hide JobsOk, HistoryOk, PastOk, AcksOk, WorkersOk, FilesOk, Ahead, Covers, SpawnedIsKept, Agree;
    assert id in v.hist by { DurableIsHistory(v); }
    AcksWith(v.acks, v.durable, v.hist, id);
    CoversAcked(v, v.holder.d.ledger.jobs, id);
  }

  lemma NewIdIsNew(w: World, d: Daemon)
    requires DurableOk(w) && MemoryOk(w, d)
    ensures d.ledger.nextId <= MAX_ID
    ensures forall id | id in w.hist || id in w.workers || id in d.ledger.jobs :: id <= d.ledger.nextId
    ensures forall id | id in d.ledger.jobs :: d.ledger.jobs[id].id == id
  {
  }

  lemma AcksBelow(w: World, d: Daemon)
    requires DurableOk(w) && MemoryOk(w, d)
    ensures forall i | 0 <= i < |w.acks| :: w.acks[i] <= d.ledger.nextId
  {
  }

  lemma SubmitSavedKeeps(w: World, owner: nat, spec: Submission, now: nat)
    requires Inv(w) && MaySubmit(w, spec)
    ensures Inv(DoSubmit(w, owner, spec, now, Saved))
  {
    hide JobsOk, HistoryOk, PastOk, AcksOk, WorkersOk, FilesOk, Ahead, Covers, SpawnedIsKept, Agree;
    var d := w.holder.d;
    var full := Submitted(d.ledger, owner, spec, now);
    SubmittedIsSavable(w, d, owner, spec, now);
    AcksBelow(w, d);
    SavedServes(w, d, full, Idle);
    AcknowledgeKeeps(WithDaemon(Write(w, full, full, Saved), d.(ledger := full, phase := Idle)), full.nextId);
  }

  lemma JobsWithin(spawns: multiset<nat>, reports: map<nat, Outcome>, jobs: map<nat, Job>, nextId: nat, nextId': nat)
    requires JobsOk(spawns, reports, jobs, nextId) && nextId <= nextId'
    ensures JobsOk(spawns, reports, jobs, nextId')
  {
  }

  /** A failed submit whose contents landed leaves in the file one pending job that memory does not know. */
  lemma UnsavedAgrees(w: World, d: Daemon, full: Ledger)
    requires Agree(w.durable.jobs, w.hist, d.ledger.jobs, None, false)
    requires forall id | id in full.jobs ::
               if id in d.ledger.jobs then full.jobs[id] == d.ledger.jobs[id] else full.jobs[id].state == Pending
    requires forall id | id in d.ledger.jobs :: id in full.jobs && d.ledger.jobs[id].id == id
    ensures Agree(full.jobs, w.hist + full.jobs, d.ledger.jobs, None, false)
  {
  }

  lemma UnsavedAhead(w: World, ledger: Ledger, full: Ledger)
    requires Ahead(w.durable, w.hist, ledger) && ledger.nextId <= full.nextId <= MAX_ID
    requires forall id | id in ledger.jobs :: id in full.jobs && full.jobs[id] == ledger.jobs[id]
    ensures Ahead(full, w.hist + full.jobs, ledger.(nextId := full.nextId))
    ensures Ahead(w.durable, w.hist, ledger.(nextId := full.nextId))
  {
  }

  lemma UnsavedCovers(w: World, jobs: map<nat, Job>, full: map<nat, Job>)
    requires Covers(jobs, w.workers, w.files, w.acks, w.hist)
    requires AcksOk(w.acks, w.durable, w.hist) && forall i | 0 <= i < |w.acks| :: w.acks[i] in full ==>
              w.acks[i] in jobs
    ensures Covers(jobs, w.workers, w.files, w.acks, w.hist + full)
  {
  }

  lemma UnsavedSubmission(w: World, d: Daemon, owner: nat, spec: Submission, now: nat, save: Save)
    requires DurableOk(w) && MemoryOk(w, d) && d.phase == Idle && d.ledger.nextId < MAX_ID && ValidRequest(spec)
    ensures var full := Submitted(d.ledger, owner, spec, now);
            MemoryOk(Write(w, full, full, save), d.(ledger := d.ledger.(nextId := full.nextId)))
  {
    var full := Submitted(d.ledger, owner, spec, now);
    hide JobsOk, HistoryOk, PastOk, AcksOk, WorkersOk, FilesOk, Ahead, Covers, SpawnedIsKept, Agree;
    NewIdIsNew(w, d);
    AcksBelow(w, d);
    JobsWithin(w.spawns, w.reports, d.ledger.jobs, d.ledger.nextId, full.nextId);
    UnsavedAhead(w, d.ledger, full);
    UnsavedAgrees(w, d, full);
    UnsavedCovers(w, d.ledger.jobs, full.jobs);
    KeptBy(d.ledger.jobs, full.jobs, w.spawns);
  }

  lemma KeptBy(jobs: map<nat, Job>, durable: map<nat, Job>, spawns: multiset<nat>)
    requires forall id | id in jobs :: id in durable
    ensures SpawnedIsKept(jobs, durable, spawns)
  {
  }

  lemma SubmitUnsavedKeeps(w: World, owner: nat, spec: Submission, now: nat, save: Save)
    requires Inv(w) && MaySubmit(w, spec) && !save.Saved?
    ensures Inv(DoSubmit(w, owner, spec, now, save))
  {
    hide JobsOk, HistoryOk, PastOk, AcksOk, WorkersOk, FilesOk, Ahead, Covers, SpawnedIsKept, Agree;
    var d := w.holder.d;
    SubmittedIsSavable(w, d, owner, spec, now);
    UnsavedSubmission(w, d, owner, spec, now, save);
    SubmitUnsavedDurable(w, d, owner, spec, now, save);
  }

  lemma SubmitUnsavedDurable(w: World, d: Daemon, owner: nat, spec: Submission, now: nat, save: Save)
    requires DurableOk(w) && Savable(w, Submitted(d.ledger, owner, spec, now)) && w.holder == Serving(d) && !save.Saved?
    ensures DurableOk(DoSubmit(w, owner, spec, now, save))
  {
    hide JobsOk, HistoryOk, PastOk, AcksOk, WorkersOk, FilesOk, Ahead, Covers, SpawnedIsKept, Agree;
    SaveKeepsDurable(w, Submitted(d.ledger, owner, spec, now), save);
  }

  lemma CancelledIsSavable(w: World, d: Daemon, id: nat, now: nat)
    requires DurableOk(w) && MemoryOk(w, d) && d.phase == Idle && id in d.ledger.jobs
              && d.ledger.jobs[id].state == Pending
    ensures Savable(w, d.ledger.(jobs := d.ledger.jobs[id := d.ledger.jobs[id].Finish(Revocation(now))]))
    ensures id in w.durable.jobs && w.durable.jobs[id] == d.ledger.jobs[id] && d.ledger.jobs[id].id == id
    ensures id !in w.workers
  {
    hide AcksOk, FilesOk, SpawnedIsKept;
    var job := d.ledger.jobs[id];
    assert WellFormed(job) && job.id == id && Settled(w.durable.jobs, w.hist, job, false);
    SetJobSavable(w, d.ledger, d.ledger.nextId, job.Finish(Revocation(now)));
  }

  lemma RevokedKeeps(w: World, id: nat)
    requires Inv(w) && id in w.durable.jobs && w.durable.jobs[id].state == Cancelled
              && w.durable.jobs[id].startedAt.None?
    ensures Inv(w.(revoked := w.revoked + {id}))
  {
    hide JobsOk, AcksOk, WorkersOk, FilesOk, Ahead, Covers, SpawnedIsKept, Agree;
  }

  lemma CancelSavedKeeps(w: World, id: nat, now: nat)
    requires Inv(w) && AtPhase(w, Idle) && HasJob(w, id, Pending)
    ensures Inv(DoCancel(w, id, now, Saved))
  {
    hide JobsOk, HistoryOk, PastOk, AcksOk, WorkersOk, FilesOk, Ahead, Covers, SpawnedIsKept, Agree;
    var d := w.holder.d;
    var ledger := d.ledger.(jobs := d.ledger.jobs[id := d.ledger.jobs[id].Finish(Revocation(now))]);
    CancelledIsSavable(w, d, id, now);
    PendingHasNotStarted(w, d, id);
    SavedServes(w, d, ledger, Idle);
    RevokedKeeps(WithDaemon(Write(w, ledger, ledger, Saved), d.(ledger := ledger, phase := Idle)), id);
  }

  lemma PendingHasNotStarted(w: World, d: Daemon, id: nat)
    requires MemoryOk(w, d) && id in d.ledger.jobs && d.ledger.jobs[id].state == Pending
    ensures d.ledger.jobs[id].startedAt.None?
  {
    hide Ahead, Covers, SpawnedIsKept, Agree;
    assert WellFormed(d.ledger.jobs[id]);
  }

  /** A cancellation that did not reach the file leaves memory one move ahead of it. */
  lemma LostCancelAgrees(w: World, jobs: map<nat, Job>, job: Job)
    requires Agree(w.durable.jobs, w.hist, jobs, None, false)
    requires job.id in w.durable.jobs && w.durable.jobs[job.id].state == Pending
    requires job.state == Cancelled && job.startedAt.None?
    ensures Agree(w.durable.jobs, w.hist, jobs[job.id := job], None, false)
  {
  }

  lemma CancelUnsavedKeeps(w: World, id: nat, now: nat, save: Save)
    requires Inv(w) && AtPhase(w, Idle) && HasJob(w, id, Pending) && !save.Saved?
    ensures Inv(DoCancel(w, id, now, save))
  {
    hide JobsOk, HistoryOk, PastOk, AcksOk, WorkersOk, FilesOk, Ahead, Covers, SpawnedIsKept, Agree;
    var d := w.holder.d;
    var job := d.ledger.jobs[id].Finish(Revocation(now));
    var ledger := d.ledger.(jobs := d.ledger.jobs[id := job]);
    CancelledIsSavable(w, d, id, now);
    PendingHasNotStarted(w, d, id);
    assert w.revoked + {} == w.revoked;
    if save.Landed? {
      SavedServes(w, d, ledger, Idle);
    } else {
      LostCancelAgrees(w, d.ledger.jobs, job);
    }
  }

  // ----- Polling -----

  lemma PolledOutcomeIsExact(w: World, d: Daemon, id: nat, now: nat)
    requires DurableOk(w) && id in w.durable.jobs && w.durable.jobs[id].state == Running && w.durable.jobs[id].id == id
    ensures var job := w.durable.jobs[id].Finish(PolledOutcome(w.files, id, now));
            job.state.Terminal() && Exact(w.spawns, w.reports, job)
  {
    hide JobsOk, AcksOk, WorkersOk;
  }

  lemma PolledIsSavable(w: World, id: nat, now: nat)
    requires Inv(w) && HasJob(w, id, Running) && w.holder.d.phase.Polling? && id !in w.workers
    ensures var d := w.holder.d;
            var job := d.ledger.jobs[id].Finish(PolledOutcome(w.files, id, now));
            && job.id == id && job.state.Terminal()
            && Savable(w, d.ledger.(jobs := d.ledger.jobs[id := job]))
  {
    hide AcksOk, FilesOk, SpawnedIsKept, Covers, WorkersOk, PastOk, Agree;
    var d := w.holder.d;
    RunningIsDurable(w, id);
    assert WellFormed(d.ledger.jobs[id]) && d.ledger.jobs[id].id == id && w.hist[id] == d.ledger.jobs[id];
    PolledOutcomeIsExact(w, d, id, now);
    SetJobSavable(w, d.ledger, d.ledger.nextId, d.ledger.jobs[id].Finish(PolledOutcome(w.files, id, now)));
  }

  lemma PolledAgrees(w: World, jobs: map<nat, Job>, job: Job, changed: bool)
    requires Agree(w.durable.jobs, w.hist, jobs, None, changed)
    requires job.id in w.durable.jobs && w.durable.jobs[job.id].state == Running && job.state.Terminal()
    ensures Agree(w.durable.jobs, w.hist, jobs[job.id := job], None, true)
  {
  }

  lemma PollDoneKeeps(w: World, id: nat, now: nat)
    requires Inv(w) && HasJob(w, id, Running) && w.holder.d.phase.Polling? && id !in w.workers
    ensures Inv(DoPoll(w, id, now))
  {
    hide JobsOk, HistoryOk, PastOk, AcksOk, WorkersOk, FilesOk, Ahead, Covers, SpawnedIsKept, Agree;
    var d := w.holder.d;
    var job := d.ledger.jobs[id].Finish(PolledOutcome(w.files, id, now));
    RunningIsDurable(w, id);
    PolledIsSavable(w, id, now);
    PolledAgrees(w, d.ledger.jobs, job, d.phase.changed);
  }

  lemma PollOpensKeeps(w: World, id: nat)
    requires Inv(w) && HasJob(w, id, Running) && w.holder.d.phase.Polling?
    ensures Inv(w.(files := Touch(w.files, FileName(id, LockFile), Marker)))
  {
    RunningJobMayAdd(w, id, LockFile);
    TouchKeeps(w, FileName(id, LockFile), Marker);
  }

  lemma EndPollsKeeps(w: World, save: Save)
    requires Inv(w) && w.holder.Serving? && w.holder.d.phase.Polling?
    ensures Inv(DoEndPolls(w, save))
  {
    hide JobsOk, HistoryOk, PastOk, AcksOk, WorkersOk, FilesOk, Ahead, Covers, SpawnedIsKept, Agree;
    var d := w.holder.d;
    if d.phase.changed {
      if save.Saved? { SavedServes(w, d, d.ledger, Granting); } else { SaveFails(w, d, d.ledger, save); }
    }
  }

  // ----- Starting a job -----

  /** A job pending in memory is pending in the file and has never had a worker. */
  lemma PendingIsFresh(w: World, d: Daemon, id: nat)
    requires DurableOk(w) && MemoryOk(w, d) && OpenJob(d.phase).None? && id in d.ledger.jobs
              && d.ledger.jobs[id].state == Pending
    ensures id in w.durable.jobs && id in w.hist && w.durable.jobs[id] == w.hist[id] == d.ledger.jobs[id]
    ensures id !in w.spawns && id !in w.workers && d.ledger.jobs[id].id == id && 0 < id <= d.ledger.nextId
    ensures WellFormed(d.ledger.jobs[id])
  {
    hide AcksOk, FilesOk, SpawnedIsKept, Ahead, Covers;
    var job := d.ledger.jobs[id];
    assert WellFormed(job) && job.id == id;
    assert Settled(w.durable.jobs, w.hist, job, d.phase.Polling? && d.phase.changed);
  }

  lemma HeldApart(jobs: map<nat, Job>, job: Job)
    requires Keys(job.devices) !! Held(jobs)
    ensures Apart(jobs, job)
  {
    forall id | id in jobs && id != job.id && jobs[id].state == Running
      ensures Keys(jobs[id].devices) !! Keys(job.devices)
    {
      assert Keys(jobs[id].devices) <= Held(jobs);
    }
  }

  lemma GrantedJob(spec: Submission, d: Daemon)
    requires ValidRequest(spec) && DistinctKeys(d.devices) && Allocate(spec, d.devices, Reserved(d)).Some?
    ensures var granted := Allocate(spec, d.devices, Reserved(d)).value;
            DistinctKeys(granted) && Keys(granted) !! Held(d.ledger.jobs)
  {
    AllocateGrants(spec, d.devices, Reserved(d));
  }

  lemma GrantedIsSavable(w: World, id: nat, now: nat, job: Job)
    requires Inv(w) && AtPhase(w, Granting) && HasJob(w, id, Pending)
    requires var d := w.holder.d;
             var granted := Allocate(d.ledger.jobs[id].spec, d.devices, Reserved(d));
             granted.Some? && job == d.ledger.jobs[id].Start(granted.value, now)
    ensures Savable(w, w.holder.d.ledger.(jobs := w.holder.d.ledger.jobs[id := job]))
  {
    hide JobsOk, HistoryOk, PastOk, AcksOk, WorkersOk, FilesOk, Ahead, Covers, SpawnedIsKept, Agree;
    var d := w.holder.d;
    PendingIsFresh(w, d, id);
    NewIdIsNew(w, d);
    GrantedJob(d.ledger.jobs[id].spec, d);
    HeldApart(d.ledger.jobs, job);
    assert WellFormed(job);
    SetJobSavable(w, d.ledger, d.ledger.nextId, job);
  }

  lemma OpenedAgrees(w: World, jobs: map<nat, Job>, job: Job)
    requires Agree(w.durable.jobs, w.hist, jobs, None, false) && job.id in jobs
    ensures Agree(w.durable.jobs, w.hist, jobs[job.id := job], Some(job.id), false)
  {
  }

  lemma GrantKeeps(w: World, id: nat, now: nat)
    requires Inv(w) && CanGrant(w, id)
    ensures Inv(DoGrant(w, id, now))
  {
    hide JobsOk, HistoryOk, PastOk, AcksOk, WorkersOk, FilesOk, Ahead, Covers, SpawnedIsKept, Agree;
    var d := w.holder.d;
    var job := d.ledger.jobs[id].Start(Allocate(d.ledger.jobs[id].spec, d.devices, Reserved(d)).value, now);
    PendingIsFresh(w, d, id);
    GrantedIsSavable(w, id, now, job);
    OpenedAgrees(w, d.ledger.jobs, job);
  }

  lemma PersistKeeps(w: World, save: Save)
    requires Inv(w) && w.holder.Serving? && w.holder.d.phase.Granted?
    ensures Inv(SaveOrFail(w, save, Persisted(w.holder.d.phase.id)))
  {
    hide JobsOk, HistoryOk, PastOk, AcksOk, WorkersOk, FilesOk, Ahead, Covers, SpawnedIsKept, Agree;
    var d := w.holder.d;
    if save.Saved? {
      SaveKeepsDurable(w, d.ledger, Saved);
      SaveSettles(w, d.ledger);
    } else {
      SaveFails(w, d, d.ledger, save);
    }
  }

  lemma TakeLockKeeps(w: World)
    requires Inv(w) && Attempting(w) && w.holder.d.phase.Persisted?
    ensures var id := w.holder.d.phase.id;
            Inv(InPhase(w, Locked(id)).(files := Touch(w.files, FileName(id, LockFile), Marker)))
  {
    hide JobsOk, HistoryOk, PastOk, AcksOk, WorkersOk, FilesOk, Ahead, Covers, SpawnedIsKept, Agree;
    var id := w.holder.d.phase.id;
    RunningJobMayAdd(w, id, LockFile);
    TouchKeeps(w, FileName(id, LockFile), Marker);
  }

  lemma DescribeKeeps(w: World)
    requires Inv(w) && Attempting(w) && w.holder.d.phase.Locked?
    ensures var id := w.holder.d.phase.id;
            Inv(InPhase(w, Described(id)).(
                  files := w.files[FileName(id, JobFile) := Description(w.holder.d.ledger.jobs[id].devices)]))
  {
    hide JobsOk, HistoryOk, PastOk, AcksOk, WorkersOk, FilesOk, Ahead, Covers, SpawnedIsKept, Agree;
    var id := w.holder.d.phase.id;
    RunningIsDurable(w, id);
    AddFileKeeps(w, FileName(id, JobFile), Description(w.holder.d.ledger.jobs[id].devices));
  }

  lemma SpawnKeepsJobs(spawns: multiset<nat>, reports: map<nat, Outcome>, jobs: map<nat, Job>, nextId: nat, id: nat)
    requires JobsOk(spawns, reports, jobs, nextId) && id in jobs && jobs[id].state == Running
    ensures JobsOk(spawns + multiset{id}, reports, jobs, nextId)
  {
  }

  /** The first and only worker of a job. */
  lemma SpawnKeepsWorkers(w: World, id: nat, devices: seq<Device>)
    requires DurableOk(w) && id !in w.spawns && id in w.durable.jobs && w.durable.jobs[id].state == Running
    requires devices == w.durable.jobs[id].devices
    ensures PastOk(w.hist, w.spawns + multiset{id}, w.reports, w.revoked)
    ensures WorkersOk(w.workers[id := Worker(devices, false)], w.durable.jobs, w.spawns + multiset{id}, w.reports)
  {
    hide AcksOk, FilesOk;
    assert WellFormed(w.hist[id]);
  }

  lemma SpawnKeepsMemory(w: World, d: Daemon, id: nat, devices: seq<Device>)
    requires MemoryOk(w, d) && id in d.ledger.jobs && d.ledger.jobs[id].state == Running && id in w.durable.jobs
    ensures Covers(d.ledger.jobs, w.workers[id := Worker(devices, false)], w.files, w.acks, w.hist)
    ensures SpawnedIsKept(d.ledger.jobs, w.durable.jobs, w.spawns + multiset{id})
  {
    hide JobsOk, Ahead, Agree;
  }

  lemma SpawnKeeps(w: World)
    requires Inv(w) && CanSpawn(w)
    ensures Inv(DoSpawn(w))
  {
    hide JobsOk, HistoryOk, PastOk, AcksOk, WorkersOk, FilesOk, Ahead, Covers, SpawnedIsKept, Agree;
    var d := w.holder.d;
    var id := d.phase.id;
    var v := w.(files := Touch(w.files, FileName(id, LogFile), Text([])));
    RunningJobMayAdd(w, id, LogFile);
    RunningIsDurable(w, id);
    TouchKeeps(w, FileName(id, LogFile), Text([]));
    DurableIsHistory(w);
    SpawnKeepsJobs(v.spawns, v.reports, v.hist, v.durable.nextId, id);
    SpawnKeepsJobs(v.spawns, v.reports, d.ledger.jobs, d.ledger.nextId, id);
    SpawnKeepsWorkers(v, id, d.ledger.jobs[id].devices);
    SpawnKeepsMemory(v, d, id, d.ledger.jobs[id].devices);
  }

  lemma RejectedIsSavable(w: World, message: string, now: nat)
    requires Inv(w) && Attempting(w)
    ensures var d := w.holder.d;
            var job := d.ledger.jobs[d.phase.id].Finish(Failure(message, now));
            job.id == d.phase.id && Savable(w, d.ledger.(jobs := d.ledger.jobs[job.id := job]))
  {
    hide AcksOk, FilesOk, SpawnedIsKept, Covers, Agree, Ahead;
    var d := w.holder.d;
    var id := d.phase.id;
    RunningIsDurable(w, id);
    assert WellFormed(d.ledger.jobs[id]) && d.ledger.jobs[id].id == id && w.hist[id] == d.ledger.jobs[id];
    NewIdIsNew(w, d);
    SetJobSavable(w, d.ledger, d.ledger.nextId, d.ledger.jobs[id].Finish(Failure(message, now)));
  }

  /** Memory drops the attempt. */
  lemma RejectedKeeps(w: World, message: string, now: nat)
    requires Inv(w) && Attempting(w)
    ensures Inv(DoStartFails(w, message, now, None))
  {
    hide JobsOk, HistoryOk, PastOk, AcksOk, WorkersOk, FilesOk, Ahead, Covers, SpawnedIsKept, Agree;
    var d := w.holder.d;
    RunningIsDurable(w, d.phase.id);
    RejectedIsSavable(w, message, now);
    OpenedAgrees(w, d.ledger.jobs, d.ledger.jobs[d.phase.id].Finish(Failure(message, now)));
  }

  lemma StartFailsKeeps(w: World, message: string, now: nat, left: Option<Ext>)
    requires Inv(w) && Attempting(w) && left in MayLeave(w.holder.d.phase)
    ensures Inv(DoStartFails(w, message, now, left))
  {
    hide Inv, DoStartFails;
    RejectedKeeps(w, message, now);
    var content := RejectionLeaves(w, message, now, left);
    if left.Some? {
      RejectedMayAdd(w, message, now, left.value);
      AddFileKeeps(DoStartFails(w, message, now, None), FileName(w.holder.d.phase.id, left.value), content);
    }
  }

  lemma RejectionLeaves(w: World, message: string, now: nat, left: Option<Ext>) returns (content: Content)
    requires Attempting(w)
    ensures var v := DoStartFails(w, message, now, None);
            DoStartFails(w, message, now, left)
            == if left.None? then v else v.(files := v.files[FileName(w.holder.d.phase.id, left.value) := content])
  {
    var id := w.holder.d.phase.id;
    var files := LeaveBehind(w.files, id, left, w.holder.d.ledger.jobs[id].devices);
    content := if left.Some? then files[FileName(id, left.value)] else Marker;
    assert left.Some? ==> files == w.files[FileName(id, left.value) := content];
  }

  lemma RejectedMayAdd(w: World, message: string, now: nat, ext: Ext)
    requires Inv(w) && Attempting(w) && ext != ResultFile
    ensures MayAdd(DoStartFails(w, message, now, None), FileName(w.holder.d.phase.id, ext))
  {
    hide JobsOk, HistoryOk, PastOk, AcksOk, WorkersOk, FilesOk, Ahead, Covers, SpawnedIsKept, Agree;
    RunningIsDurable(w, w.holder.d.phase.id);
  }

  lemma RecordRejectionKeeps(w: World, save: Save)
    requires Inv(w) && w.holder.Serving? && w.holder.d.phase.Rejected?
    ensures Inv(SaveOrFail(w, save, Granting))
  {
    hide JobsOk, HistoryOk, PastOk, AcksOk, WorkersOk, FilesOk, Ahead, Covers, SpawnedIsKept, Agree;
    var d := w.holder.d;
    if save.Saved? { SavedServes(w, d, d.ledger, Granting); } else { SaveFails(w, d, d.ledger, save); }
  }

  // ----- Cleaning up -----

  lemma BeginCleanupKeeps(w: World, now: nat)
    requires Inv(w) && AtPhase(w, Idle)
    ensures Inv(DoBeginCleanup(w, now))
  {
    hide JobsOk, HistoryOk, PastOk, AcksOk, WorkersOk, FilesOk, Ahead, Covers, SpawnedIsKept, Agree;
  }

  /** An expired job is no longer durably running. */
  lemma ExpiredIsNotRunning(w: World, id: nat)
    requires Inv(w) && w.holder.Serving? && w.holder.d.phase.Cleaning? && id in w.holder.d.phase.expired
    ensures id in w.durable.jobs ==> w.durable.jobs[id].state != Running
    ensures id !in w.workers && id in w.hist && id in w.holder.d.ledger.jobs
              && w.holder.d.ledger.jobs[id].state.Terminal()
  {
    hide PastOk, AcksOk, WorkersOk, FilesOk, Ahead, SpawnedIsKept;
    var d := w.holder.d;
    assert d.ledger.jobs[id].id == id && Settled(w.durable.jobs, w.hist, d.ledger.jobs[id], false);
  }

  lemma RemoveKeeps(w: World, name: FileName)
    requires Inv(w) && w.holder.Serving? && w.holder.d.phase.Cleaning? && name in w.holder.d.phase.todo
    ensures Inv(DoRemove(w, name))
  {
    hide JobsOk, HistoryOk, PastOk, AcksOk, WorkersOk, Ahead, SpawnedIsKept, Agree;
    ExpiredIsNotRunning(w, name.id);
  }

  ghost predicate Droppable(w: World, ids: set<nat>) {
    && (forall id | id in ids :: id in w.hist && w.hist[id].state.Terminal() && id !in w.workers)
    && (forall f | f in w.files :: f.id !in ids)
  }

  lemma DropKeepsHistory(w: World, ids: set<nat>)
    requires HistoryOk(w.durable, w.hist) && AcksOk(w.acks, w.durable, w.hist) && Droppable(w, ids)
    ensures var kept := w.durable.(jobs := Without(w.durable.jobs, ids));
            HistoryOk(kept, w.hist) && AcksOk(w.acks, kept, w.hist)
  {
  }

  lemma DropKeepsFiles(w: World, ids: set<nat>)
    requires WorkersOk(w.workers, w.durable.jobs, w.spawns, w.reports) && FilesOk(w.files, w.durable.jobs, w.reports)
    requires Droppable(w, ids)
    ensures var kept := Without(w.durable.jobs, ids);
            WorkersOk(w.workers, kept, w.spawns, w.reports) && FilesOk(w.files, kept, w.reports)
  {
  }

  /** Finished jobs without files can leave the state file. */
  lemma DropKeeps(w: World, ids: set<nat>)
    requires DurableOk(w) && Droppable(w, ids)
    ensures DurableOk(w.(durable := w.durable.(jobs := Without(w.durable.jobs, ids))))
  {
    hide JobsOk, HistoryOk, PastOk, AcksOk, WorkersOk, FilesOk;
    DropKeepsHistory(w, ids);
    DropKeepsFiles(w, ids);
  }

  /** What the clean-up has established when its last file is gone. */
  lemma CleanedIsDroppable(w: World, save: Save)
    requires Inv(w) && w.holder.Serving? && w.holder.d.phase.Cleaning? && w.holder.d.phase.todo == {} && !save.Lost?
    ensures var d := w.holder.d; Droppable(Write(w, d.ledger, d.ledger, save), d.phase.expired)
  {
    hide JobsOk, HistoryOk, PastOk, AcksOk, WorkersOk, FilesOk, Ahead, Covers, SpawnedIsKept, Agree;
    var d := w.holder.d;
    forall id | id in d.phase.expired ensures id in d.ledger.jobs && d.ledger.jobs[id].state.Terminal()
        && id !in w.workers {
      ExpiredIsNotRunning(w, id);
    }
  }

  lemma DropKeepsMemory(w: World, ledger: Ledger, ids: set<nat>, jobs: map<nat, Job>)
    requires Savable(w, ledger) && w.durable == ledger && Droppable(w, ids)
    requires forall id | id in ledger.jobs :: id in w.hist && w.hist[id] == ledger.jobs[id]
    requires jobs == ledger.jobs || jobs == Without(ledger.jobs, ids)
    ensures var v := w.(durable := ledger.(jobs := Without(ledger.jobs, ids)));
            Ahead(v.durable, v.hist, ledger.(jobs := jobs)) && SpawnedIsKept(jobs, v.durable.jobs, v.spawns)
    ensures JobsOk(w.spawns, w.reports, jobs, ledger.nextId)
  {
    hide Covers;
  }

  lemma DropKeepsCover(w: World, ledger: Ledger, ids: set<nat>)
    requires Covers(ledger.jobs, w.workers, w.files, w.acks, w.hist) && Droppable(w, ids)
    ensures Covers(Without(ledger.jobs, ids), w.workers, w.files, w.acks, w.hist)
  {
  }

  lemma DroppedAgrees(w: World, jobs: map<nat, Job>, ids: set<nat>)
    requires Droppable(w, ids) && forall id | id in jobs :: id in w.hist && w.hist[id] == jobs[id] && jobs[id].id == id
    ensures Agree(Without(jobs, ids), w.hist, jobs, None, false)
    ensures Agree(Without(jobs, ids), w.hist, Without(jobs, ids), None, false)
  {
  }

  lemma EndCleanupKeeps(w: World, save: Save)
    requires Inv(w) && w.holder.Serving? && w.holder.d.phase.Cleaning? && w.holder.d.phase.todo == {}
    ensures Inv(DoEndCleanup(w, save))
  {
    hide JobsOk, HistoryOk, PastOk, AcksOk, WorkersOk, FilesOk, Ahead, Covers, SpawnedIsKept, Agree, Droppable;
    var d := w.holder.d;
    if !save.Lost? {
      var v := Write(w, d.ledger, d.ledger, save);
      CleanedIsDroppable(w, save);
      SaveKeepsDurable(w, d.ledger, save);
      SaveSettles(w, d.ledger);
      DropKeeps(v, d.phase.expired);
      NewIdIsNew(w, d);
      DropKeepsMemory(v, d.ledger, d.phase.expired, if save.Saved? then Without(d.ledger.jobs, d.phase.expired)
          else d.ledger.jobs);
      DropKeepsCover(v, d.ledger, d.phase.expired);
      DroppedAgrees(v, d.ledger.jobs, d.phase.expired);
    }
  }

  // ----- Every step -----

  lemma RequestKeeps(w: World, step: Step)
    requires Inv(w) && Enabled(w, step)
    requires step.Submit? || step.CancelPending? || step.CancelRunning?
    ensures Inv(Apply(w, step))
  {
    hide Inv;
    match step
    case Submit(owner, spec, now, save) =>
      if save.Saved? { SubmitSavedKeeps(w, owner, spec, now); } else { SubmitUnsavedKeeps(w, owner, spec, now, save); }
    case CancelPending(id, now, save) =>
      if save.Saved? { CancelSavedKeeps(w, id, now); } else { CancelUnsavedKeeps(w, id, now, save); }
    case CancelRunning(id, left) => CancelRunningKeeps(w, id, left);
  }

  lemma SimpleKeeps(w: World, step: Step)
    requires Inv(w) && Enabled(w, step)
    requires step.Boot? || step.Crash? || step.SetExcluded? || step.Refresh? || step.CancelFinished? || step.BeginTick?
             || step.EndTick? || step.AbortCleanup? || step.PollBusy? || step.PollFails?
             || step.CleanerEnters? || step.CleanerChecks? || step.CleanerLeaves?
    ensures Inv(Apply(w, step))
  {
    hide JobsOk, HistoryOk, PastOk, AcksOk, WorkersOk, FilesOk, Ahead, Covers, SpawnedIsKept, Agree;
    if step.Boot? { BootKeeps(w, step.devices, step.status); }
  }

  lemma BootKeeps(w: World, devices: seq<Device>, status: map<Key, string>)
    requires Inv(w) && DistinctKeys(devices)
    ensures Inv(WithDaemon(w, Daemon(w.durable, devices, status, {}, Idle, {})))
  {
  }

  lemma StartKeeps(w: World, step: Step)
    requires Inv(w) && Enabled(w, step)
    requires step.Grant? || step.Persist? || step.TakeLock? || step.Describe? || step.Spawn? || step.StartFails?
             || step.RecordRejection?
    ensures Inv(Apply(w, step))
  {
    hide Inv;
    match step
    case Grant(id, now) => GrantKeeps(w, id, now);
    case Persist(save) => PersistKeeps(w, save);
    case TakeLock => TakeLockKeeps(w);
    case Describe => DescribeKeeps(w);
    case Spawn => SpawnKeeps(w);
    case StartFails(message, now, left) => StartFailsKeeps(w, message, now, left);
    case RecordRejection(save) => RecordRejectionKeeps(w, save);
  }

  lemma PollKeeps(w: World, step: Step)
    requires Inv(w) && Enabled(w, step) && (step.PollOpens? || step.PollDone? || step.EndPolls?)
    ensures Inv(Apply(w, step))
  {
    hide Inv;
    match step
    case PollOpens(id) => PollOpensKeeps(w, id);
    case PollDone(id, now) => PollDoneKeeps(w, id, now);
    case EndPolls(save) => EndPollsKeeps(w, save);
  }

  lemma CleanupKeeps(w: World, step: Step)
    requires Inv(w) && Enabled(w, step)
    requires step.BeginCleanup? || step.RemoveFile? || step.EndCleanup? || step.CleanerRemovesLog?
    ensures Inv(Apply(w, step))
  {
    hide Inv;
    match step
    case BeginCleanup(now) => BeginCleanupKeeps(w, now);
    case RemoveFile(name) => RemoveKeeps(w, name);
    case EndCleanup(save) => EndCleanupKeeps(w, save);
    case CleanerRemovesLog(id) => CleanerRemovesLogKeeps(w, id);
  }

  lemma WorkerKeeps(w: World, step: Step)
    requires Inv(w) && Enabled(w, step) && IsWorkers(step)
    ensures Inv(Apply(w, step))
  {
    hide Inv;
    match step
    case WorkerLogs(id, bytes) => AppendLogKeeps(w, id, bytes);
    case WorkerReports(id, outcome) => WorkerReportsKeeps(w, id, outcome);
    case WorkerReleases(id, temp, ending) => WorkerReleasesKeeps(w, id, temp, ending);
    case WorkerComplains(id, bytes) => AppendLogKeeps(w, id, bytes);
    case WorkerExits(id) => LooseIsFree(w, w.exiting - {id}, w.orphans);
    case WorkerDies(id) => WorkerDiesKeeps(w, id);
    case OrphansLog(id, bytes) => AppendLogKeeps(w, id, bytes);
    case OrphansEnd(id) => LooseIsFree(w, w.exiting, w.orphans - {id});
  }

  /** The invariant is inductive. */
  lemma StepKeeps(w: World, step: Step)
    requires Inv(w) && Enabled(w, step)
    ensures Inv(Apply(w, step))
  {
    hide Inv, Apply;
    if step.Submit? || step.CancelPending? || step.CancelRunning? { RequestKeeps(w, step); }
    else if step.Grant? || step.Persist? || step.TakeLock? || step.Describe? || step.Spawn? || step.StartFails?
            || step.RecordRejection? { StartKeeps(w, step); }
    else if step.PollOpens? || step.PollDone? || step.EndPolls? { PollKeeps(w, step); }
    else if step.BeginCleanup? || step.RemoveFile? || step.EndCleanup? || step.CleanerRemovesLog? {
      CleanupKeeps(w, step);
    }
    else if IsWorkers(step) { WorkerKeeps(w, step); }
    else { SimpleKeeps(w, step); }
  }

  lemma {:induction false} RunKeeps(w: World, steps: seq<Step>)
    requires Inv(w) && IsRun(w, steps)
    ensures Inv(After(w, steps))
    decreases |steps|
  {
    hide Inv, Enabled, Apply;
    if steps != [] {
      StepKeeps(w, steps[0]);
      RunKeeps(Apply(w, steps[0]), steps[1..]);
    }
  }

  /** Every reachable world satisfies the invariant. */
  lemma ReachableIsOk(w: World)
    requires Reachable(w)
    ensures Inv(w)
  {
    hide Inv, Enabled, Apply;
    var steps: seq<Step> :| IsRun(INITIAL, steps) && After(INITIAL, steps) == w;
    InvInitially();
    RunKeeps(INITIAL, steps);
  }
}
