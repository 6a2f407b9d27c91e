/** The invariant of the machine, stated on the parts of the world it speaks of, and what a save keeps. */
module Invariants {
  import opened Model
  import opened Allocator
  import opened Machine

  // ----- Jobs -----

  /** A result exists exactly when the state is terminal and agrees with it; a job that was never started holds
      no devices and is pending or cancelled. */
  ghost predicate WellFormed(job: Job) {
    && ValidRequest(job.spec)
    && DistinctKeys(job.devices)
    && (job.result.Some? <==> job.state.Terminal())
    && (job.result.Some? ==> job.result.value.state == job.state)
    && (job.state == Running ==> job.startedAt.Some?)
    && (job.state == Pending ==> job.startedAt.None?)
    && (job.startedAt.None? ==> job.devices == [] && (job.state == Pending || job.state == Cancelled))
  }

  ghost predicate SameRequest(a: Job, b: Job) {
    a.id == b.id && a.owner == b.owner && a.spec == b.spec && a.submittedAt == b.submittedAt
  }

  /** At most one move of the life cycle: Pending to Running, Pending to Cancelled without ever starting, or
      Running to a terminal state with the same devices and start time. */
  ghost predicate Advances(a: Job, b: Job) {
    SameRequest(a, b)
    && (|| a == b
        || (a.state == Pending && b.state == Running)
        || (a.state == Pending && b.state == Cancelled && b.startedAt.None?)
        || (a.state == Running && b.state.Terminal() && b.devices == a.devices && b.startedAt == a.startedAt))
  }

  /** The result of a job that was started is the one its worker wrote, if it wrote one. */
  ghost predicate Exact(spawns: multiset<nat>, reports: map<nat, Outcome>, job: Job) {
    job.state.Terminal() && job.startedAt.Some? ==>
      if job.id in reports then job.result == Some(reports[job.id])
      else
        && job.result.Some? && job.result.value.state == Failed && job.result.value.exitCode == 1
        && job.result.value.error.Some?
        && (job.id in spawns ==> job.result.value.error == Some(DISAPPEARED))
  }

  ghost predicate Exclusive(jobs: map<nat, Job>) {
    forall a, b | a in jobs && b in jobs && a != b && jobs[a].state == Running && jobs[b].state == Running ::
      Keys(jobs[a].devices) !! Keys(jobs[b].devices)
  }

  ghost predicate JobsOk(spawns: multiset<nat>, reports: map<nat, Outcome>, jobs: map<nat, Job>, nextId: nat) {
    forall id | id in jobs ::
      jobs[id].id == id && 0 < id <= nextId && WellFormed(jobs[id]) && Exact(spawns, reports, jobs[id])
  }

  // ----- The durable part -----

  ghost predicate HistoryOk(durable: Ledger, hist: map<nat, Job>) {
    && durable.nextId <= MAX_ID
    && (forall id | id in durable.jobs :: id in hist && hist[id] == durable.jobs[id])
    && Exclusive(durable.jobs)
  }

  ghost predicate PastOk(hist: map<nat, Job>, spawns: multiset<nat>, reports: map<nat, Outcome>, revoked: set<nat>) {
    && (forall id | id in spawns :: spawns[id] == 1 && id in hist && hist[id].startedAt.Some?)
    && (forall id | id in reports :: id in spawns && reports[id].state.Terminal())
    && (forall id | id in revoked :: id in hist && hist[id].state == Cancelled && hist[id].startedAt.None?)
  }

  /** Acknowledged IDs increase, stay below the durable counter, and stay in the file until they finish. */
  ghost predicate AcksOk(acks: seq<nat>, durable: Ledger, hist: map<nat, Job>) {
    && (forall i, j | 0 <= i < j < |acks| :: acks[i] < acks[j])
    && (forall i | 0 <= i < |acks| :: acks[i] <= durable.nextId && acks[i] in hist)
    && (forall i | 0 <= i < |acks| :: acks[i] in durable.jobs || hist[acks[i]].state.Terminal())
  }

  /** A live worker belongs to a durably running job and holds its devices. */
  ghost predicate WorkersOk(workers: map<nat, Worker>, durable: map<nat, Job>, spawns: multiset<nat>,
                            reports: map<nat, Outcome>) {
    forall id | id in workers ::
      && id in spawns && id in durable && durable[id].state == Running
      && workers[id].devices == durable[id].devices
      && (workers[id].reported <==> id in reports)
  }

  /** Every file belongs to a durable job that was started; a result file is what the worker wrote, and it is
      there as long as the job is durably running. */
  ghost predicate FilesOk(files: Files, durable: map<nat, Job>, reports: map<nat, Outcome>) {
    && (forall f | f in files :: f.id in durable && durable[f.id].startedAt.Some?)
    && (forall id | FileName(id, ResultFile) in files ::
          id in reports && files[FileName(id, ResultFile)] == Report(reports[id]))
    && (forall id | id in reports && id in durable && durable[id].state == Running ::
          FileName(id, ResultFile) in files)
  }

  ghost predicate DurableOk(w: World) {
    && JobsOk(w.spawns, w.reports, w.hist, w.durable.nextId)
    && HistoryOk(w.durable, w.hist)
    && PastOk(w.hist, w.spawns, w.reports, w.revoked)
    && AcksOk(w.acks, w.durable, w.hist)
    && WorkersOk(w.workers, w.durable.jobs, w.spawns, w.reports)
    && FilesOk(w.files, w.durable.jobs, w.reports)
  }

  // ----- The scheduler's memory -----

  /** Memory is ahead of everything that was ever durable by at most one move per job. */
  ghost predicate Ahead(durable: Ledger, hist: map<nat, Job>, ledger: Ledger) {
    && durable.nextId <= ledger.nextId <= MAX_ID
    && (forall id | id in ledger.jobs ::
          if id in hist then Advances(hist[id], ledger.jobs[id])
          else ledger.jobs[id].state == Pending)
    && Exclusive(ledger.jobs)
  }

  /** No worker, file or unfinished acknowledged job is missing from memory. */
  ghost predicate Covers(jobs: map<nat, Job>, workers: map<nat, Worker>, files: Files, acks: seq<nat>,
                         hist: map<nat, Job>) {
    && (forall id | id in workers :: id in jobs && jobs[id].state == Running)
    && (forall f | f in files :: f.id in jobs)
    && (forall i | 0 <= i < |acks| :: acks[i] in jobs || (acks[i] in hist && hist[acks[i]].state.Terminal()))
  }

  /** A running job that already has had a worker is in the file. */
  ghost predicate SpawnedIsKept(jobs: map<nat, Job>, durable: map<nat, Job>, spawns: multiset<nat>) {
    forall id | id in jobs && id in spawns && jobs[id].state == Running :: id in durable
  }

  /** What a ledger must satisfy for a save of it to keep the invariant. */
  ghost predicate Savable(w: World, ledger: Ledger) {
    && JobsOk(w.spawns, w.reports, ledger.jobs, ledger.nextId)
    && Ahead(w.durable, w.hist, ledger)
    && Covers(ledger.jobs, w.workers, w.files, w.acks, w.hist)
    && SpawnedIsKept(ledger.jobs, w.durable.jobs, w.spawns)
  }

  /** Memory and state file agree on a job, up to a cancellation whose save failed, a poll not yet saved, and
      an expired job that a failed clean-up has already dropped from the file. */
  ghost predicate Settled(durable: map<nat, Job>, hist: map<nat, Job>, job: Job, polled: bool) {
    if job.id in durable then
      || job == durable[job.id]
      || (durable[job.id].state == Pending && job.state == Cancelled && job.startedAt.None?)
      || (polled && durable[job.id].state == Running && job.state.Terminal())
    else
      job.state.Terminal() && job.id in hist && hist[job.id] == job
  }

  ghost predicate Agree(durable: map<nat, Job>, hist: map<nat, Job>, jobs: map<nat, Job>, open: Option<nat>,
                        polled: bool) {
    && (forall id | id in jobs && open != Some(id) :: Settled(durable, hist, jobs[id], polled))
    && (forall id | id in durable && id !in jobs :: durable[id].state == Pending)
  }

  /** A job about to get its first worker. */
  ghost predicate Fresh(durable: map<nat, Job>, spawns: multiset<nat>, jobs: map<nat, Job>, id: nat, now: State,
                        kept: State) {
    id in jobs && id !in spawns && id in durable && jobs[id].state == now && durable[id].state == kept
  }

  ghost predicate CleanupOk(files: Files, jobs: map<nat, Job>, since: nat, expired: set<nat>, todo: set<FileName>) {
    && expired == ExpiredIds(jobs, since)
    && (forall f | f in files && f.id in expired :: f in todo)
    && (forall f | f in todo :: f.id in expired)
  }

  function OpenJob(phase: Phase): Option<nat> {
    match phase
    case Granted(id) => Some(id)
    case Rejected(id) => Some(id)
    case _ => None
  }

  ghost predicate AttemptOk(w: World, d: Daemon) {
    var jobs := d.ledger.jobs;
    match d.phase
    case Granted(id) => Fresh(w.durable.jobs, w.spawns, jobs, id, Running, Pending)
    case Persisted(id) => Fresh(w.durable.jobs, w.spawns, jobs, id, Running, Running)
    case Locked(id) => Fresh(w.durable.jobs, w.spawns, jobs, id, Running, Running)
    case Described(id) =>
      Fresh(w.durable.jobs, w.spawns, jobs, id, Running, Running)
      && FileName(id, JobFile) in w.files && w.files[FileName(id, JobFile)] == Description(jobs[id].devices)
    case Rejected(id) => Fresh(w.durable.jobs, w.spawns, jobs, id, Failed, Running)
    case Cleaning(since, expired, todo) => CleanupOk(w.files, jobs, since, expired, todo)
    case _ => true
  }

  ghost predicate MemoryOk(w: World, d: Daemon) {
    && Savable(w, d.ledger)
    && DistinctKeys(d.devices)
    && Agree(w.durable.jobs, w.hist, d.ledger.jobs, OpenJob(d.phase), d.phase.Polling? && d.phase.changed)
    && AttemptOk(w, d)
  }

  /** While the offline cleaner is past its check, no durable job is running. */
  ghost predicate HolderOk(w: World) {
    match w.holder
    case Nobody => true
    case Serving(d) => d.phase.Failing? || MemoryOk(w, d)
    case Cleaner(checked) => checked ==> NoneRunning(w.durable.jobs)
  }

  ghost predicate Inv(w: World) {
    DurableOk(w) && HolderOk(w)
  }

  lemma InvInitially()
    ensures Inv(INITIAL)
  {
  }
}
