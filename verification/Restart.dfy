/** A job that the state file calls pending can always be started: by the schedulers that next read the file, on an
    inventory that serves the request. */
module Restarts {
  import opened Model
  import opened Allocator
  import opened Admissions
  import opened Effects
  import opened Machine
  import opened Invariants
  import opened Preservation
  import opened Schedules

  // ----- An inventory that serves a request -----

  /** Visible names told apart by their lengths. */
  function Name(length: nat): (name: string)
    ensures |name| == length
  {
    seq(length, _ => 'x')
  }

  function Made(kind: Kind, ids: seq<nat>, length: nat): (devices: seq<Device>)
    ensures |devices| == |ids|
    ensures forall i | 0 <= i < |ids| :: devices[i] == Device(kind, ids[i], "", Name(length + i))
  {
    seq(|ids|, i requires 0 <= i < |ids| => Device(kind, ids[i], "", Name(length + i)))
  }

  function AllIdle(devices: seq<Device>): map<Key, string> {
    map k | k in Keys(devices) :: "idle"
  }

  lemma {:induction false} LongerThan(keys: set<Key>) returns (length: nat)
    ensures forall k | k in keys :: |k.visible| < length
  {
    if keys == {} {
      length := 0;
    } else {
      var k :| k in keys;
      var rest := LongerThan(keys - {k});
      length := if rest > |k.visible| then rest else |k.visible| + 1;
      assert forall other | other in keys :: other == k || other in keys - {k};
    }
  }

  lemma {:induction false} GreaterThan(ids: seq<nat>) returns (bound: nat)
    ensures forall id | id in ids :: id < bound
  {
    if ids == [] {
      bound := 0;
    } else {
      var rest := GreaterThan(ids[1..]);
      bound := if rest > ids[0] then rest else ids[0] + 1;
      assert forall id | id in ids :: id == ids[0] || id in ids[1..];
    }
  }

  lemma MadeIsNew(kind: Kind, ids: seq<nat>, length: nat, held: set<Key>)
    requires forall k | k in held :: |k.visible| < length
    ensures var devices := Made(kind, ids, length);
            && DistinctKeys(devices) && Keys(devices) !! held && NotIdle(devices, AllIdle(devices)) == {}
  {
    var devices := Made(kind, ids, length);
    forall i, j | 0 <= i < j < |devices| ensures devices[i].Key() != devices[j].Key() {
      assert |devices[i].visible| == length + i && |devices[j].visible| == length + j;
    }
    forall d | d in devices ensures d.Key() !in held {
      var i :| 0 <= i < |devices| && devices[i] == d;
      assert |devices[i].visible| == length + i;
    }
  }

  lemma ExactIsServed(spec: Submission, ids: seq<nat>, kind: Kind, length: nat, held: set<Key>)
    requires spec.deviceIds == Some(ids) && Admits(spec, kind) && forall k | k in held :: |k.visible| < length
    ensures Allocate(spec, Made(kind, ids, length), held).Some?
  {
    var devices := Made(kind, ids, length);
    MadeIsNew(kind, ids, length, held);
    forall id | id in ids ensures FindDevice(devices, kind, id).Some? {
      FindDeviceMeaning(devices, kind, id);
      var i :| 0 <= i < |ids| && ids[i] == id;
      assert devices[i] in devices && devices[i].kind == kind && devices[i].id == id;
    }
    PriorityIsTotal(kind);
    MatchingFromMeaning(PRIORITY, spec, devices);
    var kinds := MatchingKinds(spec, devices);
    assert kind in kinds && kinds[0] in kinds;
    SelectExactSucceeds(ids, devices, kinds[0], held);
  }

  lemma {:induction false} AllEligible(spec: Submission, devices: seq<Device>, held: set<Key>, kind: Kind)
    requires forall d | d in devices :: Eligible(d, spec, held, kind)
    ensures Pool(spec, devices, held, kind) == devices
  {
    if devices != [] {
      assert devices[0] in devices;
      AllEligible(spec, devices[1..], held, kind);
    }
  }

  lemma CountIsServed(spec: Submission, ids: seq<nat>, kind: Kind, length: nat, held: set<Key>)
    requires spec.deviceIds.None? && spec.count == |ids| > 0 && Admits(spec, kind)
    requires forall k | k in held :: |k.visible| < length
    requires forall id | id in ids :: id !in spec.excludeIds
    ensures Allocate(spec, Made(kind, ids, length), held).Some?
  {
    var devices := Made(kind, ids, length);
    MadeIsNew(kind, ids, length, held);
    forall d | d in devices ensures Eligible(d, spec, held, kind) {
      var i :| 0 <= i < |devices| && devices[i] == d;
      assert ids[i] in ids && d.Key() in Keys(devices);
    }
    AllEligible(spec, devices, held, kind);
    PoolSize(spec, devices, held, kind);
    AutomaticAllocation(spec, devices, held);
  }

  /** Some inventory of idle devices, none of them held, serves the request. */
  lemma SomeInventoryServes(spec: Submission, held: set<Key>) returns (devices: seq<Device>)
    requires ValidRequest(spec)
    ensures DistinctKeys(devices) && NotIdle(devices, AllIdle(devices)) == {}
    ensures Allocate(spec, devices, held).Some?
    ensures spec.count == 0 ==> devices == []
  {
    var kind := if spec.kind.Some? then spec.kind.value else Nvidia;
    var length := LongerThan(held);
    if spec.deviceIds.Some? {
      devices := Made(kind, spec.deviceIds.value, length);
      MadeIsNew(kind, spec.deviceIds.value, length, held);
      ExactIsServed(spec, spec.deviceIds.value, kind, length, held);
    } else {
      var bound := GreaterThan(spec.excludeIds);
      var ids: seq<nat> := seq(spec.count, i requires 0 <= i => bound + i);
      devices := Made(kind, ids, length);
      MadeIsNew(kind, ids, length, held);
      if spec.count > 0 { CountIsServed(spec, ids, kind, length, held); }
    }
  }

  // ----- The way to the start loop -----

  /** Whoever holds the daemon lock lets go of it. */
  function Stop(w: World): seq<Step> {
    match w.holder
    case Nobody => []
    case Serving(_) => [Crash]
    case Cleaner(_) => [CleanerLeaves]
  }

  lemma Stops(a: At, cap: nat)
    ensures Path(a, Stop(a.w), a.(w := a.w.(holder := Nobody)), cap)
  {
    if !a.w.holder.Nobody? {
      var step := if a.w.holder.Serving? then Crash else CleanerLeaves;
      StopEffect(a.w, step);
      hide Enabled, Apply, Path;
      PathFirst(a, step, cap);
    } else {
      assert a == a.(w := a.w.(holder := Nobody));
    }
  }

  const NO_POLLS: seq<Step> := [BeginTick, EndPolls(Saved)]
  const EMPTY_TICK: seq<Step> := NO_POLLS + [EndTick]

  /** The first half of a tick that finds no job running. */
  lemma NoPolls(a: At, cap: nat)
    requires AtPhase(a.w, Idle) && RunningIds(a.w.holder.d.ledger.jobs) == {}
    ensures Path(a, NO_POLLS, At(InPhase(a.w, Granting), a.ticked, 0, false), cap)
  {
    hide Enabled, Apply, Path;
    PhaseEffect(a.w, BeginTick, Polling(false));
    PathFirst(a, BeginTick, cap);
    var polling := Move(a, BeginTick);
    PhaseEffect(polling.w, EndPolls(Saved), Granting);
    PathNext(a, [BeginTick], polling, EndPolls(Saved), cap);
    assert [BeginTick] + [EndPolls(Saved)] == NO_POLLS;
  }

  lemma EndsTick(a: At, cap: nat)
    requires AtPhase(a.w, Granting) && PendingIds(a.w.holder.d.ledger.jobs) == {}
    ensures Path(a, [EndTick], At(InPhase(a.w, Idle), true, 0, false), cap)
  {
    hide Enabled, Apply, Path;
    PhaseEffect(a.w, EndTick, Idle);
    PathFirst(a, EndTick, cap);
  }

  /** A tick that finds no job running and none pending. */
  lemma EmptyTick(a: At, cap: nat)
    requires AtPhase(a.w, Idle)
    requires RunningIds(a.w.holder.d.ledger.jobs) == {} && PendingIds(a.w.holder.d.ledger.jobs) == {}
    ensures Path(a, EMPTY_TICK, At(a.w, true, 0, false), cap)
  {
    hide Path;
    var granting := At(InPhase(a.w, Granting), a.ticked, 0, false);
    NoPolls(a, cap);
    EndsTick(granting, cap);
    assert InPhase(granting.w, Idle) == a.w;
    PathFurther(a, NO_POLLS, granting, [EndTick], At(a.w, true, 0, false), cap);
  }

  /** The workers end, one after the other. */
  lemma {:induction false} WorkersEnd(a: At, cap: nat) returns (steps: seq<Step>, b: At)
    ensures Path(a, steps, b, cap) && b == a.(w := a.w.(workers := map[], exiting := b.w.exiting))
    decreases |a.w.workers|
  {
    if a.w.workers == map[] {
      LeadsNowhere(a, cap);
      steps, b := [], a;
    } else {
      hide Enabled, Apply, Path;
      var id :| id in a.w.workers;
      var step := WorkerReleases(id, false, Quiet);
      ReleaseEffect(a.w, id, false, Quiet);
      PathFirst(a, step, cap);
      assert a.w.workers == (a.w.workers - {id})[id := a.w.workers[id]];
      var rest, end := WorkersEnd(Move(a, step), cap);
      PathFurther(a, [step], Move(a, step), rest, end, cap);
      steps, b := [step] + rest, end;
    }
  }

  lemma BootsToPolling(a: At, devices: seq<Device>, cap: nat)
    requires a.w.holder.Nobody? && DistinctKeys(devices)
    ensures var d := Daemon(a.w.durable, devices, AllIdle(devices), {}, Polling(false), {});
            Path(a, [Boot(devices, AllIdle(devices)), BeginTick], At(WithDaemon(a.w, d), false, 0, false), cap)
  {
    hide Enabled, Apply, Path, DistinctKeys;
    var boot := Boot(devices, AllIdle(devices));
    BootEffect(a.w, devices, AllIdle(devices));
    PathFirst(a, boot, cap);
    var b := Move(a, boot);
    PhaseEffect(b.w, BeginTick, Polling(false));
    PathNext(a, [boot], b, BeginTick, cap);
    assert [boot] + [BeginTick] == [boot, BeginTick];
  }

  /** Every log is as it was. */
  ghost predicate SameLogs(files: Files, files': Files) {
    forall f: FileName | f.ext == LogFile ::
      (f in files <==> f in files') && (f in files ==> files'[f] == files[f])
  }

  /** The same jobs are there, and those that were pending are as they were. */
  predicate SamePending(jobs: map<nat, Job>, jobs': map<nat, Job>) {
    && jobs'.Keys == jobs.Keys && PendingIds(jobs') == PendingIds(jobs)
    && forall id | id in PendingIds(jobs) :: jobs'[id] == jobs[id]
  }

  /** The polls of a daemon that has adopted dead workers only: what is still running has not been polled yet. */
  ghost predicate Unpolled(a: At) {
    && Inv(a.w) && a.w.holder.Serving? && a.w.holder.d.phase.Polling? && !a.atLock
    && a.w.workers == map[] && a.w.holder.d.children == {}
    && (forall id | id in RunningIds(a.w.holder.d.ledger.jobs) :: a.next <= id)
    && (!a.w.holder.d.phase.changed ==> a.w.holder.d.ledger == a.w.durable)
  }

  ghost predicate OnlyPolled(w: World, u: World) {
    && w.holder.Serving? && u.holder.Serving?
    && u.holder.d == w.holder.d.(ledger := u.holder.d.ledger, phase := u.holder.d.phase)
    && u == w.(holder := u.holder, files := u.files)
    && u.holder.d.ledger.nextId == w.holder.d.ledger.nextId
    && SamePending(w.holder.d.ledger.jobs, u.holder.d.ledger.jobs) && SameLogs(w.files, u.files)
  }

  /** A poll finishes its job and touches nothing else. */
  lemma PollFinishes(a: At, v: World, id: nat, u: World)
    requires Unpolled(a) && IsNextPoll(a, id) && v == a.w.(files := Touch(a.w.files, FileName(id, LockFile), Marker))
    requires Inv(v) && u == DoPoll(v, id, 0) && Inv(u)
    ensures Unpolled(At(u, a.ticked, id + 1, false)) && OnlyPolled(a.w, u)
    ensures RunningIds(u.holder.d.ledger.jobs) < RunningIds(a.w.holder.d.ledger.jobs)
  {
    hide Inv, PolledOutcome, Savable;
    PolledIsSavable(v, id, 0);
    var jobs, jobs' := a.w.holder.d.ledger.jobs, u.holder.d.ledger.jobs;
    assert RunningIds(jobs') == RunningIds(jobs) - {id};
    assert id in RunningIds(jobs) && id !in RunningIds(jobs');
    assert PendingIds(jobs') == PendingIds(jobs);
  }

  lemma PollsNext(a: At, cap: nat) returns (steps: seq<Step>, b: At)
    requires Unpolled(a) && RunningIds(a.w.holder.d.ledger.jobs) != {}
    ensures Path(a, steps, b, cap) && Unpolled(b) && OnlyPolled(a.w, b.w)
    ensures RunningIds(b.w.holder.d.ledger.jobs) < RunningIds(a.w.holder.d.ledger.jobs)
  {
    hide Inv, Enabled, Apply, Path, OnlyPolled;
    var id := LeastOf(RunningIds(a.w.holder.d.ledger.jobs));
    var open, done := PollOpens(id), PollDone(id, 0);
    PollMissEffect(a.w, id);
    StepKeeps(a.w, open);
    PathFirst(a, open, cap);
    var m := Move(a, open);
    PollEffect(m.w, id, 0);
    StepKeeps(m.w, done);
    PathNext(a, [open], m, done, cap);
    PollFinishes(a, m.w, id, DoPoll(m.w, id, 0));
    steps, b := [open] + [done], Move(m, done);
  }

  lemma NothingPolled(w: World)
    requires w.holder.Serving?
    ensures OnlyPolled(w, w)
  {
  }

  lemma PolledOn(u: World, v: World, w: World)
    requires OnlyPolled(u, v) && OnlyPolled(v, w)
    ensures OnlyPolled(u, w)
  {
  }

  lemma {:induction false} PollsAll(a: At, cap: nat) returns (steps: seq<Step>, b: At)
    requires Unpolled(a)
    ensures Path(a, steps, b, cap) && Unpolled(b) && OnlyPolled(a.w, b.w)
    ensures RunningIds(b.w.holder.d.ledger.jobs) == {}
    decreases RunningIds(a.w.holder.d.ledger.jobs)
  {
    if RunningIds(a.w.holder.d.ledger.jobs) == {} {
      NothingPolled(a.w);
      assert NoSubmission([]) && NoDeath([]);
      LeadsNowhere(a, cap);
      steps, b := [], a;
    } else {
      hide Path, Unpolled, OnlyPolled, RunningIds;
      var first, m := PollsNext(a, cap);
      var rest, end := PollsAll(m, cap);
      PathFurther(a, first, m, rest, end, cap);
      PolledOn(a.w, m.w, end.w);
      steps, b := first + rest, end;
    }
  }

  /** The start loop of a daemon that has just started: nothing is running, and what was pending still is. */
  ghost predicate Restarted(w: World, devices: seq<Device>, u: World) {
    && Inv(u) && u.holder == Serving(Daemon(u.durable, devices, AllIdle(devices), {}, Granting, {}))
    && RunningIds(u.durable.jobs) == {} && SamePending(w.durable.jobs, u.durable.jobs)
    && u.durable.nextId == w.durable.nextId && u.workers == map[]
    && u.orphans == w.orphans && u.spawns == w.spawns && SameLogs(w.files, u.files)
  }

  lemma PollsEnd(w: World, devices: seq<Device>, a: At, cap: nat) returns (b: At)
    requires Unpolled(a) && RunningIds(a.w.holder.d.ledger.jobs) == {}
    requires OnlyPolled(WithDaemon(w, Daemon(w.durable, devices, AllIdle(devices), {}, Polling(false), {})), a.w)
    requires w.workers == map[]
    ensures Path(a, [EndPolls(Saved)], b, cap) && Restarted(w, devices, b.w)
  {
    hide Inv, Enabled, Apply, Path;
    EndPollsEffect(a.w, Saved);
    StepKeeps(a.w, EndPolls(Saved));
    PathFirst(a, EndPolls(Saved), cap);
    b := Move(a, EndPolls(Saved));
  }

  /** Whatever the world is: the lock holder stops, the workers end, and a daemon that boots polls what was running. */
  lemma Restarts(a: At, devices: seq<Device>, cap: nat) returns (steps: seq<Step>, b: At)
    requires Inv(a.w) && DistinctKeys(devices)
    ensures Path(a, steps, b, cap) && Restarted(a.w, devices, b.w)
  {
    hide Inv, Path, OnlyPolled, Restarted, DistinctKeys, Enabled, Apply;
    var stopped := a.(w := a.w.(holder := Nobody));
    Stops(a, cap);
    var ends, alone := WorkersEnd(stopped, cap);
    PathFurther(a, Stop(a.w), stopped, ends, alone, cap);
    var boots := [Boot(devices, AllIdle(devices)), BeginTick];
    BootsToPolling(alone, devices, cap);
    var d := Daemon(alone.w.durable, devices, AllIdle(devices), {}, Polling(false), {});
    var booted := At(WithDaemon(alone.w, d), false, 0, false);
    PathFurther(a, Stop(a.w) + ends, alone, boots, booted, cap);
    PathKeeps(a, Stop(a.w) + ends + boots, booted, cap);
    var polls, polled := PollsAll(booted, cap);
    PathFurther(a, Stop(a.w) + ends + boots, booted, polls, polled, cap);
    b := PollsEnd(alone.w, devices, polled, cap);
    PathFurther(a, Stop(a.w) + ends + boots + polls, polled, [EndPolls(Saved)], b, cap);
    steps := Stop(a.w) + ends + boots + polls + [EndPolls(Saved)];
    RestartedFrom(a.w, alone.w, devices, b.w);
  }

  lemma PathKeeps(a: At, steps: seq<Step>, b: At, cap: nat)
    requires Inv(a.w) && Path(a, steps, b, cap)
    ensures Inv(b.w)
  {
    hide Inv, Leads, Enabled, Apply;
    LeadsIsRun(a, steps, b, cap);
    RunKeeps(a.w, steps);
  }

  lemma RestartedFrom(w: World, alone: World, devices: seq<Device>, u: World)
    requires Restarted(alone, devices, u)
    requires alone.durable == w.durable && alone.orphans == w.orphans && alone.spawns == w.spawns
    requires alone.files == w.files
    ensures Restarted(w, devices, u)
  {
  }

  // ----- The start -----

  /** What a start makes of the job. */
  function StartedJob(d: Daemon, id: nat): Job
    requires id in d.ledger.jobs && !MustWait(d, id)
  {
    d.ledger.jobs[id].Start(Allocate(d.ledger.jobs[id].spec, d.devices, Reserved(d)).value, 0)
  }

  const LAUNCH: seq<Step> := [Persist(Saved), TakeLock, Describe, Spawn]

  lemma GrantPersists(a: At, id: nat, cap: nat) returns (b: At)
    requires CanGrant(a.w, id) && Follows(a, Grant(id, 0), cap)
    ensures Path(a, [Grant(id, 0), Persist(Saved)], b, cap)
    ensures var d := a.w.holder.d;
            var ledger := d.ledger.(jobs := d.ledger.jobs[id := StartedJob(d, id)]);
            b == a.(w := WithDaemon(a.w, d.(ledger := ledger, phase := Persisted(id))).(
                      durable := ledger, hist := a.w.hist + ledger.jobs))
  {
    hide Path, Allocate, Enabled, Apply;
    GrantEffect(a.w, id, 0);
    PathFirst(a, Grant(id, 0), cap);
    var granted := Move(a, Grant(id, 0));
    TickSaveEffect(granted.w, Persist(Saved), Saved);
    PathNext(a, [Grant(id, 0)], granted, Persist(Saved), cap);
    assert [Grant(id, 0)] + [Persist(Saved)] == [Grant(id, 0), Persist(Saved)];
    b := Move(granted, Persist(Saved));
  }

  lemma PersistedLocks(a: At, id: nat, cap: nat) returns (b: At)
    requires AtPhase(a.w, Persisted(id)) && HasJob(a.w, id, Running) && id !in a.w.workers
    ensures Path(a, [TakeLock], b, cap)
    ensures b == a.(w := InPhase(a.w, Locked(id)).(files := b.w.files)) && SameLogs(a.w.files, b.w.files)
  {
    hide Path, Enabled, Apply;
    LockEffect(a.w);
    PathFirst(a, TakeLock, cap);
    b := Move(a, TakeLock);
  }

  lemma LockedDescribes(a: At, id: nat, cap: nat) returns (b: At)
    requires AtPhase(a.w, Locked(id)) && HasJob(a.w, id, Running)
    ensures Path(a, [Describe], b, cap)
    ensures b == a.(w := InPhase(a.w, Described(id)).(files := b.w.files)) && SameLogs(a.w.files, b.w.files)
    ensures FileName(id, JobFile) in b.w.files
            && b.w.files[FileName(id, JobFile)] == Description(a.w.holder.d.ledger.jobs[id].devices)
  {
    hide Path, Enabled, Apply;
    DescribeEffect(a.w);
    PathFirst(a, Describe, cap);
    b := Move(a, Describe);
  }

  lemma DescribedSpawns(a: At, id: nat, devices: seq<Device>, cap: nat) returns (b: At)
    requires AtPhase(a.w, Described(id)) && HasJob(a.w, id, Running)
    requires FileName(id, JobFile) in a.w.files && a.w.files[FileName(id, JobFile)] == Description(devices)
    ensures Path(a, [Spawn], b, cap) && b == a.(w := b.w)
    ensures var w, u := a.w, b.w;
            && u.holder == Serving(w.holder.d.(phase := Granting, children := w.holder.d.children + {id}))
            && u == w.(holder := u.holder, files := Touch(w.files, FileName(id, LogFile), Text([])),
                       spawns := w.spawns + multiset{id}, workers := w.workers[id := Worker(devices, false)])
  {
    hide Path, Enabled, Apply;
    SpawnEffect(a.w);
    PathFirst(a, Spawn, cap);
    b := Move(a, Spawn);
  }

  lemma PersistedSpawns(a: At, id: nat, cap: nat) returns (b: At)
    requires AtPhase(a.w, Persisted(id)) && HasJob(a.w, id, Running) && id !in a.w.workers
    ensures Path(a, [TakeLock, Describe, Spawn], b, cap) && b == a.(w := b.w)
    ensures var w, u := a.w, b.w;
            && u.holder == Serving(w.holder.d.(phase := Granting, children := w.holder.d.children + {id}))
            && u == w.(holder := u.holder, files := u.files, spawns := w.spawns + multiset{id},
                       workers := w.workers[id := Worker(w.holder.d.ledger.jobs[id].devices, false)])
    ensures var log := FileName(id, LogFile);
            log in b.w.files && (log !in a.w.files ==> b.w.files[log] == Text([]))
  {
    hide Path;
    var locked := PersistedLocks(a, id, cap);
    var described := LockedDescribes(locked, id, cap);
    PathFurther(a, [TakeLock], locked, [Describe], described, cap);
    b := DescribedSpawns(described, id, a.w.holder.d.ledger.jobs[id].devices, cap);
    PathFurther(a, [TakeLock] + [Describe], described, [Spawn], b, cap);
    assert [TakeLock] + [Describe] + [Spawn] == [TakeLock, Describe, Spawn];
  }

  /** One job started in full. */
  lemma GrantingStarts(a: At, id: nat, cap: nat) returns (b: At)
    requires CanGrant(a.w, id) && Follows(a, Grant(id, 0), cap) && id !in a.w.workers
    ensures Path(a, [Grant(id, 0)] + LAUNCH, b, cap) && b == a.(w := b.w)
    ensures var d, w, u := a.w.holder.d, a.w, b.w;
            var ledger := d.ledger.(jobs := d.ledger.jobs[id := StartedJob(d, id)]);
            && u.holder == Serving(d.(ledger := ledger, phase := Granting, children := d.children + {id}))
            && u == w.(holder := u.holder, durable := ledger, hist := w.hist + ledger.jobs, files := u.files,
                       spawns := w.spawns + multiset{id},
                       workers := w.workers[id := Worker(StartedJob(d, id).devices, false)])
    ensures var log := FileName(id, LogFile);
            log in b.w.files && (log !in a.w.files ==> b.w.files[log] == Text([]))
  {
    hide Path, Allocate, Follows, MustWait;
    var persisted := GrantPersists(a, id, cap);
    b := PersistedSpawns(persisted, id, cap);
    PathFurther(a, [Grant(id, 0), Persist(Saved)], persisted, [TakeLock, Describe, Spawn], b, cap);
    assert [Grant(id, 0), Persist(Saved)] + [TakeLock, Describe, Spawn] == [Grant(id, 0)] + LAUNCH;
  }

  // ----- Rounds -----

  lemma NothingReserved(d: Daemon)
    requires RunningIds(d.ledger.jobs) == {} && d.excluded == {} && d.status == AllIdle(d.devices)
    ensures Reserved(d) == {}
  {
    forall id | id in d.ledger.jobs ensures d.ledger.jobs[id].state != Running {
      assert id !in RunningIds(d.ledger.jobs);
    }
    assert forall e | e in d.devices :: e.Key() in Keys(d.devices);
  }

  /** Before its first grant, a daemon on these devices would start the job if it were alone. */
  predicate Servable(jobs: map<nat, Job>, id: nat, devices: seq<Device>) {
    id in PendingIds(jobs) && Allocate(jobs[id].spec, devices, {}).Some?
  }

  /** What one round makes of the world: one job, not after the given one in the start order, has been started. */
  ghost predicate RoundDone(w: World, devices: seq<Device>, id: nat, first: nat, u: World) {
    var jobs, jobs' := w.durable.jobs, u.durable.jobs;
    && Servable(jobs, first, devices) && id in jobs && !GoesBefore(jobs, id, first)
    && AtPhase(u, Granting) && u.holder.d.ledger == u.durable && u.durable.nextId == w.durable.nextId
    && u.holder.d.devices == devices && u.holder.d.excluded == {} && u.holder.d.children == {first}
    && jobs'.Keys == jobs.Keys && PendingIds(jobs') == PendingIds(jobs) - {first} && RunningIds(jobs') == {first}
    && (forall other | other in PendingIds(jobs') :: jobs'[other] == jobs[other])
    && u.workers == map[first := Worker(Allocate(jobs[first].spec, devices, {}).value, false)]
    && u.spawns == w.spawns + multiset{first} && u.orphans == w.orphans
    && FileName(first, LogFile) in u.files
    && (FileName(first, LogFile) !in w.files ==> u.files[FileName(first, LogFile)] == Text([]))
  }

  lemma PicksFirst(w: World, a: At, devices: seq<Device>, id: nat) returns (first: nat)
    requires Restarted(w, devices, a.w) && Servable(w.durable.jobs, id, devices)
    ensures Servable(w.durable.jobs, first, devices) && !GoesBefore(w.durable.jobs, id, first)
    ensures CanGrant(a.w, first) && IsNextGrant(a.w.holder.d, first) && Reserved(a.w.holder.d) == {}
  {
    hide Inv, Allocate, Reserved, GoesBefore;
    var jobs := w.durable.jobs;
    var servable := set other | other in PendingIds(jobs) && Servable(jobs, other, devices);
    NothingReserved(a.w.holder.d);
    assert id in servable;
    first := FirstOf(jobs, servable);
    SamePendingGoesBefore(jobs, a.w.durable.jobs);
  }

  lemma SamePendingGoesBefore(jobs: map<nat, Job>, jobs': map<nat, Job>)
    requires SamePending(jobs, jobs')
    ensures forall a, b | a in PendingIds(jobs) && b in PendingIds(jobs) ::
              GoesBefore(jobs', a, b) <==> GoesBefore(jobs, a, b)
  {
  }

  lemma RoundIsDone(w: World, a: World, devices: seq<Device>, id: nat, first: nat, u: World)
    requires Restarted(w, devices, a) && CanGrant(a, first) && Reserved(a.holder.d) == {}
    requires Servable(w.durable.jobs, first, devices)
    requires id in w.durable.jobs && !GoesBefore(w.durable.jobs, id, first)
    requires var d := a.holder.d;
             var ledger := d.ledger.(jobs := d.ledger.jobs[first := StartedJob(d, first)]);
             && u.holder == Serving(d.(ledger := ledger, phase := Granting, children := d.children + {first}))
             && u == a.(holder := u.holder, durable := ledger, hist := a.hist + ledger.jobs, files := u.files,
                        spawns := a.spawns + multiset{first},
                        workers := a.workers[first := Worker(StartedJob(d, first).devices, false)])
    requires var log := FileName(first, LogFile);
             log in u.files && (log !in a.files ==> u.files[log] == Text([]))
    ensures RoundDone(w, devices, id, first, u)
  {
    hide Inv, Allocate, Reserved, GoesBefore;
    var jobs, jobs' := a.durable.jobs, u.durable.jobs;
    assert jobs[first] == w.durable.jobs[first];
    assert PendingIds(jobs') == PendingIds(jobs) - {first};
    assert RunningIds(jobs') == RunningIds(jobs) + {first};
  }

  /** One round: after a restart, the first job of the start order that can be given devices is started. */
  lemma StartsFirst(w: World, a: At, devices: seq<Device>, id: nat, cap: nat)
    returns (steps: seq<Step>, b: At, first: nat)
    requires Restarted(w, devices, a.w) && Servable(w.durable.jobs, id, devices) && cap > 0
    ensures Path(a, steps, b, cap) && RoundDone(w, devices, id, first, b.w)
  {
    hide Inv, Path, Allocate, Reserved, GoesBefore, RoundDone;
    first := PicksFirst(w, a, devices, id);
    b := GrantingStarts(a, first, cap);
    RoundIsDone(w, a.w, devices, id, first, b.w);
    steps := [Grant(first, 0)] + LAUNCH;
  }

  lemma PlaysRound(a: At, devices: seq<Device>, id: nat, cap: nat) returns (steps: seq<Step>, b: At, first: nat)
    requires Inv(a.w) && DistinctKeys(devices) && Servable(a.w.durable.jobs, id, devices) && cap > 0
    ensures Path(a, steps, b, cap) && Inv(b.w) && RoundDone(a.w, devices, id, first, b.w)
  {
    hide Inv, Path, Restarted, RoundDone, Servable, DistinctKeys;
    var restart, granting := Restarts(a, devices, cap);
    var start, started, f := StartsFirst(a.w, granting, devices, id, cap);
    PathFurther(a, restart, granting, start, started, cap);
    PathKeeps(a, restart + start, started, cap);
    steps, b, first := restart + start, started, f;
  }

  /** Round after round, until the job itself has been started. */
  lemma {:induction false} PlaysUntil(a: At, devices: seq<Device>, id: nat, cap: nat)
    returns (steps: seq<Step>, b: At)
    requires Inv(a.w) && DistinctKeys(devices) && Servable(a.w.durable.jobs, id, devices) && cap > 0
    ensures Path(a, steps, b, cap) && b.w.spawns[id] == a.w.spawns[id] + 1 && FileName(id, LogFile) in b.w.files
    decreases PendingIds(a.w.durable.jobs)
  {
    hide Inv, Path, Allocate, DistinctKeys;
    var round, m, first := PlaysRound(a, devices, id, cap);
    if first == id {
      steps, b := round, m;
    } else {
      assert first in PendingIds(a.w.durable.jobs);
      var rest, end := PlaysUntil(m, devices, id, cap);
      PathFurther(a, round, m, rest, end, cap);
      steps, b := round + rest, end;
    }
  }

  /** From any world that satisfies the invariant, and under any limit, the program can come to start the job: after
      restarts, in which the jobs before it in the start order get their turn first. */
  lemma RestartsStart(a: At, id: nat, cap: nat) returns (steps: seq<Step>, b: At)
    requires Inv(a.w) && id in a.w.durable.jobs && a.w.durable.jobs[id].state == Pending && cap > 0
    ensures Path(a, steps, b, cap) && b.w.spawns[id] == a.w.spawns[id] + 1 && FileName(id, LogFile) in b.w.files
  {
    PendingIsValid(a.w, id);
    hide Inv, Path, Allocate, DistinctKeys;
    var devices := SomeInventoryServes(a.w.durable.jobs[id].spec, {});
    steps, b := PlaysUntil(a, devices, id, cap);
  }

  lemma PendingIsValid(w: World, id: nat)
    requires Inv(w) && id in w.durable.jobs && w.durable.jobs[id].state == Pending
    ensures ValidRequest(w.durable.jobs[id].spec)
  {
    hide PastOk, AcksOk, FilesOk, HolderOk;
    assert WellFormed(w.hist[id]);
  }
}
