/** Where the daemon uses the scheduler (src/daemon.rs): the order of serve at start-up, and the restart check. */
module Daemons {
  import opened Model
  import opened Planner
  import opened Machine
  import opened Invariants
  import opened Guarantees
  import opened Cancellation
  import opened Effects
  import opened Inventories
  import opened Stores
  import opened Platforms
  import opened Schedulers

  /** No job that was started between the two lists holds a device of the set. */
  ghost predicate StartsAvoid(before: seq<Job>, after: seq<Job>, keys: set<Key>) {
    |before| == |after|
    && forall i | 0 <= i < |before| && before[i].state == Pending && after[i].state == Running ::
         Keys(after[i].devices) !! keys
  }

  /** One tick leads from one list to the other: the finished jobs are taken over, then the start loop runs against
      what is held, excluded and not idle. */
  ghost predicate Ticked(before: seq<Job>, after: seq<Job>, devices: seq<Device>, status: map<Key, string>,
                         excluded: set<Key>, cap: nat, now: nat) {
    exists polled: seq<Job>, withheld': set<Key>, failures: map<nat, string> ::
      && AllPolledFrom(before, polled)
      && StartLoop(polled, HeldKeys(polled) + excluded + NotIdle(devices, status), after, withheld', devices, cap,
                   failures, now)
      && |after| == |polled|
      && forall i | 0 <= i < |after| :: StartedOrNot(polled[i], after[i], devices, status, excluded, failures, now)
  }

  lemma TickAvoidsExcluded(before: seq<Job>, polled: seq<Job>, withheld: set<Key>, after: seq<Job>, withheld': set<Key>,
                           devices: seq<Device>, cap: nat, failures: map<nat, string>, now: nat, keys: set<Key>)
    requires AllPolledFrom(before, polled) && keys <= withheld && DistinctKeys(devices)
    requires StartLoop(polled, withheld, after, withheld', devices, cap, failures, now)
    ensures StartsAvoid(before, after, keys)
  {
    hide StartLoop, DistinctKeys;
    TickGrantsFreeDevices(polled, withheld, after, withheld', devices, cap, failures, now);
    forall i | 0 <= i < |before| && before[i].state == Pending && after[i].state == Running
      ensures Keys(after[i].devices) !! keys
    {
      assert polled[i] == before[i];
    }
  }

  /** The start of serve: one daemon at a time; the exclusions asked for are in force before the first tick can
      start anything, and the first clean-up runs after it. None: the lock is taken, a vendor asked for cannot be
      listed, max-running is zero, an excluded ID is unknown, or a call failed (to prepare the directory, to open the
      lock, to install the signal handlers, to read the store, in the tick, or to bind the socket); then the process
      ends. */
  method Serve(platform: Platform, backend: Backend, drivers: Drivers, status: map<Key, string>, maxRunning: nat,
               excludeIds: seq<nat>, now: nat) returns (r: Option<Scheduler>)
    requires platform.Tracked() && platform.Mirrors() && OwnKind(drivers)
    modifies platform
    ensures platform.Tracked() && platform.Mirrors() && old(platform.trace) <= platform.trace
    ensures platform.locked == (old(platform.locked) || r.Some?)
    ensures r.None? ==>
              || old(platform.locked) || maxRunning == 0 || (backend.Only? && !Usable(drivers, backend.kind))
              || !KnownIds(Listings(PRIORITY, backend, drivers), excludeIds) || platform.Failed(old(platform.calls))
    ensures old(platform.locked) || maxRunning == 0 ==> r.None? && platform.trace == old(platform.trace)
    ensures backend.Only? && !Usable(drivers, backend.kind) ==> r.None? && platform.trace == old(platform.trace)
    ensures !KnownIds(Listings(PRIORITY, backend, drivers), excludeIds) ==>
              r.None? && platform.durable == old(platform.durable)
    ensures r.Some? ==>
              && ByVendor(backend, drivers, r.value.devices) && EachIsThere(r.value.devices, excludeIds)
              && AreExcluded(r.value.devices, excludeIds, true, {}, r.value.excluded)
              && !exists kind :: backend == Only(kind) && !Contributes(backend, drivers, kind)
    ensures r.Some? ==>
              && r.value.platform == platform && fresh(r.value) && r.value.Valid() && r.value.phase == Idle
              && r.value.devices == Listings(PRIORITY, backend, drivers) && r.value.maxRunning == maxRunning
              && r.value.excluded == KeysWithIds(r.value.devices, excludeIds)
              && exists started: seq<Job> ::
                   && Ticked(old(platform.durable.jobs), started, r.value.devices, status, r.value.excluded,
                       maxRunning, now)
                   && StartsAvoid(old(platform.durable.jobs), started, r.value.excluded)
                   && r.value.jobs in {started, Retained(started, ExpiredOf(started, now))}
                   && (r.value.jobs == started || Keeps(started, r.value.jobs, now))
  {
    var prepared := platform.Call();
    if prepared.Fails? { return None; }
    var lock := platform.Call();
    if lock.Fails? || platform.locked { return None; }
    var signals := platform.Call();
    if signals.Fails? { return None; }
    var found := Discover(backend, drivers);
    if found.None? || maxRunning == 0 { return None; }
    var store := platform.Call();
    if store.Fails? { return None; }
    InventoryKeysAreDistinct(backend, drivers);
    r := StartUp(platform, found.value, status, maxRunning, excludeIds, now);
  }

  method FirstTick(s: Scheduler, now: nat) returns (ok: bool)
    requires s.Valid() && s.phase == Idle
    modifies s`jobs, s`phase, s`children, s.platform
    ensures s.Valid() && old(s.platform.trace) <= s.platform.trace && old(s.platform.calls) <= s.platform.calls
    ensures ok ==>
              && s.phase == Idle && StartsAvoid(old(s.jobs), s.jobs, s.excluded)
              && Ticked(old(s.jobs), s.jobs, s.devices, s.status, s.excluded, s.maxRunning, now)
    ensures !ok ==> s.platform.Failed(old(s.platform.calls))
  {
    hide IsRun, After, Apply, Enabled, Index, Ordered, Platform.Tracked, AllPolledFrom, StartLoop, HeldKeys,
         DistinctKeys,
         StartsAvoid, WorkConserved, AllPolled, SavedOrSame, OneSpawnEach, AllAdmitted, RunningCount;
    ghost var polled: seq<Job>, withheld: set<Key>, failures: map<nat, string>;
    ok, polled, withheld, failures := s.Tick(now);
    if ok {
      TickAvoidsExcluded(old(s.jobs), polled, withheld, s.jobs, s.Withheld(), s.devices, s.maxRunning, failures, now,
                         s.excluded);
    }
  }

  method StartUp(platform: Platform, devices: seq<Device>, status: map<Key, string>, maxRunning: nat,
                 excludeIds: seq<nat>, now: nat) returns (r: Option<Scheduler>)
    requires platform.Tracked() && platform.Mirrors() && !platform.locked
    requires DistinctKeys(devices) && maxRunning > 0
    modifies platform
    ensures platform.Tracked() && platform.Mirrors() && old(platform.trace) <= platform.trace
    ensures platform.locked == r.Some?
    ensures r.None? ==> !KnownIds(devices, excludeIds) || platform.Failed(old(platform.calls))
    ensures !KnownIds(devices, excludeIds) ==> r.None? && platform.durable == old(platform.durable)
    ensures r.Some? ==>
              && r.value.platform == platform && fresh(r.value) && r.value.Valid() && r.value.phase == Idle
              && r.value.devices == devices && r.value.maxRunning == maxRunning
              && r.value.excluded == KeysWithIds(devices, excludeIds)
              && EachIsThere(devices, excludeIds) && AreExcluded(devices, excludeIds, true, {}, r.value.excluded)
              && exists started: seq<Job> ::
                   && Ticked(old(platform.durable.jobs), started, devices, status, r.value.excluded, maxRunning, now)
                   && StartsAvoid(old(platform.durable.jobs), started, r.value.excluded)
                   && r.value.jobs in {started, Retained(started, ExpiredOf(started, now))}
                   && (r.value.jobs == started || Keeps(started, r.value.jobs, now))
  {
    hide IsRun, After, Apply, Enabled, Index, Ordered, Platform.Tracked, DistinctKeys, Ticked, StartsAvoid,
         ExpiredOf, Retained,
         AllAdmitted, EachIsThere, AreExcluded, Keeps;
    var s := new Scheduler.Boot(platform, devices, status, maxRunning);
    var ok := s.SetDevicesExcluded(excludeIds, true);
    if !ok {
      s.Exit();
      return None;
    }
    assert s.excluded == KeysWithIds(devices, excludeIds);
    ok := FirstTick(s, now);
    if !ok {
      s.Exit();
      return None;
    }
    ghost var started := s.jobs;
    ok := s.Cleanup(now);
    var bound := platform.Call();
    if bound.Fails? {
      s.Exit();
      return None;
    }
    return Some(s);
  }

  /** Whatever daemons were started, stopped or crashed on a state directory: its workers share no device, and no
      job has had two workers. */
  lemma WorkersOfAllDaemons(platform: Platform)
    requires platform.Tracked() && platform.Mirrors()
    ensures forall a, b | a in platform.workers && b in platform.workers && a != b ::
              Keys(platform.workers[a].devices) !! Keys(platform.workers[b].devices)
    ensures forall id :: multiset(Spawned(INITIAL, platform.trace))[id] <= 1
  {
    hide IsRun, After, Enabled, Apply;
    assert Reachable(platform.world);
    DevicesAreExclusive(platform.world);
    SpawnedIsCounted(INITIAL, platform.trace);
    forall id ensures multiset(Spawned(INITIAL, platform.trace))[id] <= 1 { AtMostOneWorker(platform.world, id); }
  }

  /** The jobs for which a run spawns a worker, in the order of the spawns. */
  ghost function Spawned(w: World, steps: seq<Step>): seq<nat>
    requires IsRun(w, steps)
    decreases |steps|
  {
    if steps == [] then []
    else (if steps[0].Spawn? then [w.holder.d.phase.id] else []) + Spawned(Apply(w, steps[0]), steps[1..])
  }

  lemma {:induction false} SpawnedIsCounted(w: World, steps: seq<Step>)
    requires IsRun(w, steps)
    ensures After(w, steps).spawns == w.spawns + multiset(Spawned(w, steps))
    decreases |steps|
  {
    hide Apply;
    if steps != [] {
      SpawnedIsCounted(Apply(w, steps[0]), steps[1..]);
      if steps[0].Spawn? { SpawnEffect(w); } else { OnlySpawnSpawns(w, steps[0]); }
    }
  }

  /** A restart is let through exactly when no job is running; then no worker is live either, so a scheduler that
      starts on another inventory cannot collide with one. */
  method AllowsRestart(s: Scheduler) returns (ok: bool)
    requires s.Valid() && s.phase == Idle
    ensures ok <==> forall i | 0 <= i < |s.jobs| :: s.jobs[i].state != Running
    ensures ok ==> s.platform.workers == map[]
  {
    ok := forall i | 0 <= i < |s.jobs| :: s.jobs[i].state != Running;
    if ok { NoneRunningNoneLive(s); }
  }

  lemma NoneRunningNoneLive(s: Scheduler)
    requires s.Valid() && s.phase == Idle && forall i | 0 <= i < |s.jobs| :: s.jobs[i].state != Running
    ensures s.platform.workers == map[]
  {
    hide IsRun, After, JobsOk, HistoryOk, PastOk, AcksOk, WorkersOk, FilesOk, Ahead, Agree, SpawnedIsKept;
    s.KnowInv();
    IndexIsExact(s.jobs);
    NoneRunningInIndex(s.jobs);
    assert forall id | id in s.platform.workers :: Index(s.jobs)[id].state == Running;
  }
}
