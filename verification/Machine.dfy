/** The whole system as a step machine: one scheduler process at most, the durable state file, the per-job
    files, and the workers, which outlive the scheduler. Every durable effect of the program is a step of its
    own, so a crash can fall between any two of them. */
module Machine {
  import opened Model
  import opened Allocator

  datatype Ledger = Ledger(nextId: nat, jobs: map<nat, Job>)

  datatype Ext = JobFile | LogFile | LockFile | ResultFile | CancelFile | TempFile

  datatype FileName = FileName(id: nat, ext: Ext)

  datatype Content = Marker | Description(devices: seq<Device>) | Text(bytes: seq<Byte>) | Report(outcome: Outcome)

  type Files = map<FileName, Content>

  /** A worker is live as long as it holds its job's lock. */
  datatype Worker = Worker(devices: seq<Device>, reported: bool)

  /** How a worker process ends once it has given up the lock: with nothing more to say, or with the error that made
      it fail still to be printed to its standard error, which is the job's log. */
  datatype Ending = Quiet | WithError

  /** The outcomes of write_json on the state file: renamed and synced; failed with the old contents; failed
      after the rename, with the new contents. */
  datatype Save = Saved | Lost | Landed

  /** Where the single scheduler thread stands between two effects. */
  datatype Phase =
    | Idle
    | Polling(changed: bool)
    | Granting
    | Granted(id: nat)
    | Persisted(id: nat)
    | Locked(id: nat)
    | Described(id: nat)
    | Rejected(id: nat)
    | Cleaning(since: nat, expired: set<nat>, todo: set<FileName>)
    | Failing

  /** children are the worker processes that this daemon spawned and has not waited for. */
  datatype Daemon = Daemon(
    ledger: Ledger,
    devices: seq<Device>,
    status: map<Key, string>,
    excluded: set<Key>,
    phase: Phase,
    children: set<nat>)

  /** Who holds daemon.lock. */
  datatype Holder = Nobody | Serving(d: Daemon) | Cleaner(checked: bool)

  /** exiting are the worker processes that have given up their locks; orphans are the processes that a command has
      left behind because its worker died without cleaning up, and the devices they use. hist, spawns, reports, acks
      and revoked are history variables: the last record of every job that ever became durable, the workers ever
      spawned, the results ever written, the IDs acknowledged to clients in order, and the jobs whose cancellation
      was acknowledged with a successful save. */
  datatype World = World(
    holder: Holder,
    durable: Ledger,
    files: Files,
    workers: map<nat, Worker>,
    exiting: map<nat, Ending>,
    orphans: map<nat, seq<Device>>,
    hist: map<nat, Job>,
    spawns: multiset<nat>,
    reports: map<nat, Outcome>,
    acks: seq<nat>,
    revoked: set<nat>)

  const INITIAL := World(Nobody, Ledger(0, map[]), map[], map[], map[], map[], map[], multiset{}, map[], [], {})

  datatype Step =
    | Boot(devices: seq<Device>, status: map<Key, string>)
    | Crash
    | SetExcluded(excluded: set<Key>)
    | Refresh(status: map<Key, string>)
    | Submit(owner: nat, spec: Submission, now: nat, save: Save)
    | CancelPending(id: nat, now: nat, save: Save)
    | CancelRunning(id: nat, left: Option<Ext>)
    | CancelFinished(id: nat)
    | BeginTick
    | PollOpens(id: nat)
    | PollBusy(id: nat)
    | PollDone(id: nat, now: nat)
    | PollFails(id: nat)
    | EndPolls(save: Save)
    | Grant(id: nat, now: nat)
    | Persist(save: Save)
    | TakeLock
    | Describe
    | Spawn
    | StartFails(message: string, now: nat, left: Option<Ext>)
    | RecordRejection(save: Save)
    | EndTick
    | BeginCleanup(now: nat)
    | RemoveFile(name: FileName)
    | AbortCleanup
    | EndCleanup(save: Save)
    | CleanerEnters
    | CleanerChecks
    | CleanerRemovesLog(id: nat)
    | CleanerLeaves
    | WorkerLogs(id: nat, bytes: seq<Byte>)
    | WorkerReports(id: nat, outcome: Outcome)
    | WorkerReleases(id: nat, temp: bool, ending: Ending)
    | WorkerComplains(id: nat, bytes: seq<Byte>)
    | WorkerExits(id: nat)
    | WorkerDies(id: nat)
    | OrphansLog(id: nat, bytes: seq<Byte>)
    | OrphansEnd(id: nat)

  // ----- Parts of a step -----

  function Held(jobs: map<nat, Job>): set<Key> {
    set id, d | id in jobs && jobs[id].state == Running && d in jobs[id].devices :: d.Key()
  }

  /** The reserved set of the start loop. */
  function Reserved(d: Daemon): set<Key> {
    Held(d.ledger.jobs) + d.excluded + NotIdle(d.devices, d.status)
  }

  /** Replace the state file by `kept`; `all` is what is thereby settled about every job in memory. */
  function Write(w: World, kept: Ledger, all: Ledger, save: Save): World {
    if save.Lost? then w else w.(durable := kept, hist := w.hist + all.jobs)
  }

  function WithDaemon(w: World, d: Daemon): World {
    w.(holder := Serving(d))
  }

  function InPhase(w: World, phase: Phase): World
    requires w.holder.Serving?
  {
    WithDaemon(w, w.holder.d.(phase := phase))
  }

  predicate AtPhase(w: World, phase: Phase) {
    w.holder.Serving? && w.holder.d.phase == phase
  }

  predicate HasJob(w: World, id: nat, state: State) {
    w.holder.Serving? && id in w.holder.d.ledger.jobs && w.holder.d.ledger.jobs[id].state == state
  }

  /** The program is at a point of a start attempt for this job. */
  predicate Attempting(w: World) {
    w.holder.Serving? && (w.holder.d.phase.Persisted? || w.holder.d.phase.Locked? || w.holder.d.phase.Described?)
    && w.holder.d.phase.id in w.holder.d.ledger.jobs
  }

  function Touch(files: Files, name: FileName, content: Content): Files {
    if name in files then files else files[name := content]
  }

  /** Workers append through the descriptor they were started with, so a log that was deleted stays deleted. */
  function AppendLog(files: Files, id: nat, bytes: seq<Byte>): Files {
    var name := FileName(id, LogFile);
    if name !in files then files
    else files[name := Text((if files[name].Text? then files[name].bytes else []) + bytes)]
  }

  function LeaveBehind(files: Files, id: nat, left: Option<Ext>, devices: seq<Device>): Files {
    match left
    case None => files
    case Some(LogFile) => Touch(files, FileName(id, LogFile), Text([]))
    case Some(JobFile) => files[FileName(id, JobFile) := Description(devices)]
    case Some(ext) => files[FileName(id, ext) := Marker]
  }

  function ExpiredIds(jobs: map<nat, Job>, now: nat): set<nat> {
    set id | id in jobs && Expired(jobs[id], now)
  }

  function FilesOf(files: Files, ids: set<nat>): set<FileName> {
    set f | f in files && f.id in ids
  }

  function Without(jobs: map<nat, Job>, ids: set<nat>): map<nat, Job> {
    map id | id in jobs && id !in ids :: jobs[id]
  }

  function PolledOutcome(files: Files, id: nat, now: nat): Outcome {
    var name := FileName(id, ResultFile);
    if name in files && files[name].Report? then files[name].outcome else Failure(DISAPPEARED, now)
  }

  // ----- When a step can happen -----

  predicate MaySubmit(w: World, spec: Submission) {
    AtPhase(w, Idle) && w.holder.d.ledger.nextId < MAX_ID && ValidRequest(spec)
  }

  predicate CanGrant(w: World, id: nat) {
    AtPhase(w, Granting) && HasJob(w, id, Pending)
    && Allocate(w.holder.d.ledger.jobs[id].spec, w.holder.d.devices, Reserved(w.holder.d)).Some?
  }

  predicate CanPoll(w: World, id: nat) {
    w.holder.Serving? && w.holder.d.phase.Polling? && HasJob(w, id, Running)
  }

  /** The lock is free, and a child of this daemon has exited as well. */
  predicate IsGone(w: World, id: nat) {
    id !in w.workers && (w.holder.Serving? && id in w.holder.d.children ==> id !in w.exiting)
  }

  predicate CanSpawn(w: World) {
    Attempting(w) && w.holder.d.phase.Described? && DescribedDevices(w).Some?
  }

  predicate MayReport(w: World, id: nat, outcome: Outcome) {
    id in w.workers && !w.workers[id].reported && outcome.state.Terminal()
  }

  predicate Enabled(w: World, step: Step) {
    match step
    case Boot(devices, _) => w.holder.Nobody? && DistinctKeys(devices)
    case Crash => w.holder.Serving?
    case SetExcluded(_) => AtPhase(w, Idle)
    case Refresh(_) => AtPhase(w, Idle)
    case Submit(_, spec, _, _) => MaySubmit(w, spec)
    case CancelPending(id, _, _) => AtPhase(w, Idle) && HasJob(w, id, Pending)
    case CancelRunning(id, left) =>
      AtPhase(w, Idle) && HasJob(w, id, Running) && left in {None, Some(TempFile), Some(CancelFile)}
    case CancelFinished(id) =>
      AtPhase(w, Idle) && id in w.holder.d.ledger.jobs && w.holder.d.ledger.jobs[id].state.Terminal()
    case BeginTick => AtPhase(w, Idle)
    case PollOpens(id) => CanPoll(w, id)
    case PollBusy(id) => CanPoll(w, id) && id in w.workers
    case PollDone(id, _) => CanPoll(w, id) && IsGone(w, id)
    case PollFails(id) => CanPoll(w, id)
    case EndPolls(_) => w.holder.Serving? && w.holder.d.phase.Polling?
    case Grant(id, _) => CanGrant(w, id)
    case Persist(_) => w.holder.Serving? && w.holder.d.phase.Granted?
    case TakeLock => Attempting(w) && w.holder.d.phase.Persisted? && w.holder.d.phase.id !in w.workers
    case Describe => Attempting(w) && w.holder.d.phase.Locked?
    case Spawn => CanSpawn(w)
    case StartFails(_, _, left) => Attempting(w) && left in MayLeave(w.holder.d.phase)
    case RecordRejection(_) => w.holder.Serving? && w.holder.d.phase.Rejected?
    case EndTick => AtPhase(w, Granting)
    case BeginCleanup(_) => AtPhase(w, Idle)
    case RemoveFile(name) => w.holder.Serving? && w.holder.d.phase.Cleaning? && name in w.holder.d.phase.todo
    case AbortCleanup => w.holder.Serving? && w.holder.d.phase.Cleaning?
    case EndCleanup(_) => w.holder.Serving? && w.holder.d.phase.Cleaning? && w.holder.d.phase.todo == {}
    case CleanerEnters => w.holder.Nobody?
    case CleanerChecks => w.holder == Cleaner(false)
    case CleanerRemovesLog(_) => w.holder == Cleaner(true)
    case CleanerLeaves => w.holder.Cleaner?
    case WorkerLogs(id, _) => id in w.workers && !w.workers[id].reported
    case WorkerReports(id, outcome) => MayReport(w, id, outcome)
    case WorkerReleases(id, _, _) => id in w.workers
    case WorkerComplains(id, _) => id in w.exiting && w.exiting[id].WithError?
    case WorkerExits(id) => id in w.exiting
    case WorkerDies(id) => id in w.workers && !w.workers[id].reported
    case OrphansLog(id, _) => id in w.orphans
    case OrphansEnd(id) => id in w.orphans
  }

  /** The steps of the first loop of a tick and of the second. */
  predicate IsPolling(step: Step) {
    step.BeginTick? || step.PollOpens? || step.PollBusy? || step.PollDone? || step.PollFails? || step.EndPolls?
  }

  predicate IsStarting(step: Step) {
    step.Grant? || step.Persist? || step.TakeLock? || step.Describe? || step.Spawn? || step.StartFails?
    || step.RecordRejection? || step.EndTick?
  }

  /** The steps of the clean-up and of the offline clean. */
  predicate IsCleaning(step: Step) {
    step.BeginCleanup? || step.RemoveFile? || step.AbortCleanup? || step.EndCleanup? || step.CleanerEnters?
    || step.CleanerChecks? || step.CleanerRemovesLog? || step.CleanerLeaves?
  }

  /** The steps of the workers and of what they leave behind. */
  predicate IsWorkers(step: Step) {
    step.WorkerLogs? || step.WorkerReports? || step.WorkerReleases? || step.WorkerComplains? || step.WorkerExits?
    || step.WorkerDies? || step.OrphansLog? || step.OrphansEnd?
  }

  function MayLeave(phase: Phase): set<Option<Ext>> {
    match phase
    case Persisted(_) => {None, Some(LockFile)}
    case Locked(_) => {None, Some(TempFile), Some(JobFile)}
    case Described(_) => {None, Some(LogFile)}
    case _ => {None}
  }

  /** What the worker about to be spawned will read from its job file. */
  function DescribedDevices(w: World): Option<seq<Device>>
    requires Attempting(w)
  {
    var name := FileName(w.holder.d.phase.id, JobFile);
    if name in w.files && w.files[name].Description? then Some(w.files[name].devices) else None
  }

  // ----- What a step does -----

  function DoSubmit(w: World, owner: nat, spec: Submission, now: nat, save: Save): World
    requires w.holder.Serving?
  {
    var d := w.holder.d;
    var id := d.ledger.nextId + 1;
    var full := Ledger(id, d.ledger.jobs[id := NewJob(id, owner, spec, now)]);
    var written := Write(w, full, full, save);
    if save.Saved? then written.(holder := Serving(d.(ledger := full)), acks := w.acks + [id])
    else WithDaemon(written, d.(ledger := d.ledger.(nextId := id)))
  }

  function DoCancel(w: World, id: nat, now: nat, save: Save): World
    requires HasJob(w, id, Pending)
  {
    var job := w.holder.d.ledger.jobs[id];
    var ledger := w.holder.d.ledger.(jobs := w.holder.d.ledger.jobs[id := job.Finish(Revocation(now))]);
    var written := Write(w, ledger, ledger, save);
    WithDaemon(written, w.holder.d.(ledger := ledger)).(revoked := w.revoked + if save.Saved? then {id} else {})
  }

  function DoPoll(w: World, id: nat, now: nat): World
    requires HasJob(w, id, Running)
  {
    var d := w.holder.d;
    var job := d.ledger.jobs[id].Finish(PolledOutcome(w.files, id, now));
    WithDaemon(w, d.(ledger := d.ledger.(jobs := d.ledger.jobs[id := job]), phase := Polling(true),
                     children := d.children - {id}))
  }

  function DoEndPolls(w: World, save: Save): World
    requires w.holder.Serving? && w.holder.d.phase.Polling?
  {
    if !w.holder.d.phase.changed then InPhase(w, Granting)
    else InPhase(Write(w, w.holder.d.ledger, w.holder.d.ledger, save), if save.Saved? then Granting else Failing)
  }

  function DoGrant(w: World, id: nat, now: nat): World
    requires CanGrant(w, id)
  {
    var d := w.holder.d;
    var devices := Allocate(d.ledger.jobs[id].spec, d.devices, Reserved(d)).value;
    var job := d.ledger.jobs[id].Start(devices, now);
    WithDaemon(w, d.(ledger := d.ledger.(jobs := d.ledger.jobs[id := job]), phase := Granted(id)))
  }

  /** Save the ledger in the middle of a tick: an error ends the process. */
  function SaveOrFail(w: World, save: Save, next: Phase): World
    requires w.holder.Serving?
  {
    InPhase(Write(w, w.holder.d.ledger, w.holder.d.ledger, save), if save.Saved? then next else Failing)
  }

  function DoSpawn(w: World): World
    requires CanSpawn(w)
  {
    var id := w.holder.d.phase.id;
    WithDaemon(w, w.holder.d.(phase := Granting, children := w.holder.d.children + {id})).(
      files := Touch(w.files, FileName(id, LogFile), Text([])),
      workers := w.workers[id := Worker(DescribedDevices(w).value, false)],
      spawns := w.spawns + multiset{id})
  }

  function DoStartFails(w: World, message: string, now: nat, left: Option<Ext>): World
    requires Attempting(w)
  {
    var d := w.holder.d;
    var id := d.phase.id;
    var job := d.ledger.jobs[id];
    w.(holder := Serving(d.(ledger := d.ledger.(jobs := d.ledger.jobs[id := job.Finish(Failure(message, now))]),
                            phase := Rejected(id))),
       files := LeaveBehind(w.files, id, left, job.devices))
  }

  function DoBeginCleanup(w: World, now: nat): World
    requires w.holder.Serving?
  {
    var expired := ExpiredIds(w.holder.d.ledger.jobs, now);
    if expired == {} then w else InPhase(w, Cleaning(now, expired, FilesOf(w.files, expired)))
  }

  function DoRemove(w: World, name: FileName): World
    requires w.holder.Serving? && w.holder.d.phase.Cleaning?
  {
    var phase := w.holder.d.phase;
    InPhase(w, phase.(todo := phase.todo - {name})).(files := w.files - {name})
  }

  function DoEndCleanup(w: World, save: Save): World
    requires w.holder.Serving? && w.holder.d.phase.Cleaning?
  {
    var d := w.holder.d;
    var kept := d.ledger.(jobs := Without(d.ledger.jobs, d.phase.expired));
    WithDaemon(Write(w, kept, d.ledger, save), d.(ledger := if save.Saved? then kept else d.ledger, phase := Idle))
  }

  predicate NoneRunning(jobs: map<nat, Job>) {
    forall id | id in jobs :: jobs[id].state != Running
  }

  function DoWorkerLogs(w: World, id: nat, bytes: seq<Byte>): World {
    w.(files := AppendLog(w.files, id, bytes))
  }

  function DoWorkerReports(w: World, id: nat, outcome: Outcome): World
    requires id in w.workers
  {
    w.(files := w.files[FileName(id, ResultFile) := Report(outcome)],
       workers := w.workers[id := w.workers[id].(reported := true)],
       reports := w.reports[id := outcome])
  }

  /** The worker is killed: its lock is free at once, and of its command only the first process dies with it
      (PR_SET_PDEATHSIG). Once it has reported, there are no others. */
  function DoWorkerDies(w: World, id: nat): World
    requires id in w.workers
  {
    w.(workers := w.workers - {id}, orphans := w.orphans[id := w.workers[id].devices])
  }

  function DoWorkerReleases(w: World, id: nat, temp: bool, ending: Ending): World {
    w.(files := if temp then w.files[FileName(id, TempFile) := Marker] else w.files,
       workers := w.workers - {id},
       exiting := w.exiting[id := ending])
  }

  function Apply(w: World, step: Step): World
    requires Enabled(w, step)
  {
    match step
    case Boot(devices, status) => WithDaemon(w, Daemon(w.durable, devices, status, {}, Idle, {}))
    case Crash => w.(holder := Nobody)
    case SetExcluded(excluded) => WithDaemon(w, w.holder.d.(excluded := excluded))
    case Refresh(status) => WithDaemon(w, w.holder.d.(status := status))
    case Submit(owner, spec, now, save) => DoSubmit(w, owner, spec, now, save)
    case CancelPending(id, now, save) => DoCancel(w, id, now, save)
    case CancelRunning(id, left) => w.(files := LeaveBehind(w.files, id, left, []))
    case CancelFinished(_) => w
    case BeginTick => InPhase(w, Polling(false))
    case PollOpens(id) => w.(files := Touch(w.files, FileName(id, LockFile), Marker))
    case PollBusy(_) => w
    case PollDone(id, now) => DoPoll(w, id, now)
    case PollFails(_) => InPhase(w, Failing)
    case EndPolls(save) => DoEndPolls(w, save)
    case Grant(id, now) => DoGrant(w, id, now)
    case Persist(save) => SaveOrFail(w, save, Persisted(w.holder.d.phase.id))
    case TakeLock =>
      var id := w.holder.d.phase.id;
      InPhase(w, Locked(id)).(files := Touch(w.files, FileName(id, LockFile), Marker))
    case Describe =>
      var id := w.holder.d.phase.id;
      var devices := w.holder.d.ledger.jobs[id].devices;
      InPhase(w, Described(id)).(files := w.files[FileName(id, JobFile) := Description(devices)])
    case Spawn => DoSpawn(w)
    case StartFails(message, now, left) => DoStartFails(w, message, now, left)
    case RecordRejection(save) => SaveOrFail(w, save, Granting)
    case EndTick => InPhase(w, Idle)
    case BeginCleanup(now) => DoBeginCleanup(w, now)
    case RemoveFile(name) => DoRemove(w, name)
    case AbortCleanup => InPhase(w, Idle)
    case EndCleanup(save) => DoEndCleanup(w, save)
    case CleanerEnters => w.(holder := Cleaner(false))
    case CleanerChecks => w.(holder := if NoneRunning(w.durable.jobs) then Cleaner(true) else Nobody)
    case CleanerRemovesLog(id) => w.(files := w.files - {FileName(id, LogFile)})
    case CleanerLeaves => w.(holder := Nobody)
    case WorkerLogs(id, bytes) => DoWorkerLogs(w, id, bytes)
    case WorkerReports(id, outcome) => DoWorkerReports(w, id, outcome)
    case WorkerReleases(id, temp, ending) => DoWorkerReleases(w, id, temp, ending)
    case WorkerComplains(id, bytes) => w.(files := AppendLog(w.files, id, bytes))
    case WorkerExits(id) => w.(exiting := w.exiting - {id})
    case WorkerDies(id) => DoWorkerDies(w, id)
    case OrphansLog(id, bytes) => w.(files := AppendLog(w.files, id, bytes))
    case OrphansEnd(id) => w.(orphans := w.orphans - {id})
  }

  // ----- Runs -----

  predicate IsRun(w: World, steps: seq<Step>)
    decreases |steps|
  {
    steps == [] || (Enabled(w, steps[0]) && IsRun(Apply(w, steps[0]), steps[1..]))
  }

  function After(w: World, steps: seq<Step>): World
    requires IsRun(w, steps)
    decreases |steps|
  {
    if steps == [] then w else After(Apply(w, steps[0]), steps[1..])
  }

  ghost predicate Reachable(w: World) {
    exists steps: seq<Step> :: IsRun(INITIAL, steps) && After(INITIAL, steps) == w
  }

  lemma {:induction false} RunConcat(w: World, a: seq<Step>, b: seq<Step>)
    requires IsRun(w, a) && IsRun(After(w, a), b)
    ensures IsRun(w, a + b) && After(w, a + b) == After(After(w, a), b)
    decreases |a|
  {
    if a == [] {
      assert a + b == b;
    } else {
      assert (a + b)[0] == a[0] && (a + b)[1..] == a[1..] + b;
      RunConcat(Apply(w, a[0]), a[1..], b);
    }
  }

  lemma RunStep(w: World, a: seq<Step>, step: Step)
    requires IsRun(w, a) && Enabled(After(w, a), step)
    ensures IsRun(w, a + [step]) && After(w, a + [step]) == Apply(After(w, a), step)
  {
    var end := After(w, a);
    assert IsRun(Apply(end, step), []) && [step][1..] == [];
    RunConcat(w, a, [step]);
  }

  lemma NextIsReachable(w: World, step: Step)
    requires Reachable(w) && Enabled(w, step)
    ensures Reachable(Apply(w, step))
  {
    hide Enabled, Apply, IsRun, After;
    var steps: seq<Step> :| IsRun(INITIAL, steps) && After(INITIAL, steps) == w;
    RunStep(INITIAL, steps, step);
  }

  lemma RunIsReachable(w: World, steps: seq<Step>)
    requires Reachable(w) && IsRun(w, steps)
    ensures Reachable(After(w, steps))
  {
    hide IsRun, After, Enabled, Apply;
    var first: seq<Step> :| IsRun(INITIAL, first) && After(INITIAL, first) == w;
    RunConcat(INITIAL, first, steps);
  }
}
