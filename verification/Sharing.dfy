/** When processes of two jobs can come to use the same device: exactly if a worker died without cleaning up. */
module Sharing {
  import opened Model
  import opened Allocator
  import opened Cancellation
  import opened Effects
  import opened Guarantees
  import opened Invariants
  import opened Logs
  import opened Machine
  import opened Preservation
  import opened Restarts
  import opened Schedules

  /** The job's worker, or what it left behind when it died, uses the device. */
  predicate Uses(w: World, id: nat, key: Key) {
    (id in w.workers && key in Keys(w.workers[id].devices)) || (id in w.orphans && key in Keys(w.orphans[id]))
  }

  ghost predicate Shared(w: World, key: Key) {
    exists a, b :: a != b && Uses(w, a, key) && Uses(w, b, key)
  }

  /** Processes left behind use the device. */
  predicate KeptByOrphans(w: World, key: Key) {
    exists id | id in w.orphans :: key in Keys(w.orphans[id])
  }

  // ----- Without a death nothing is left behind, and nothing is shared -----

  lemma OrphanStep(w: World, step: Step, id: nat)
    requires Enabled(w, step) && step != WorkerDies(id) && id in Apply(w, step).orphans
    ensures id in w.orphans && Apply(w, step).orphans[id] == w.orphans[id]
  {
    hide Enabled, Apply;
    if IsWorkers(step) { WorkersKeepOrphans(w, step, id); } else { OthersKeepOutside(w, step); }
  }

  lemma WorkersKeepOrphans(w: World, step: Step, id: nat)
    requires Enabled(w, step) && IsWorkers(step) && step != WorkerDies(id) && id in Apply(w, step).orphans
    ensures id in w.orphans && Apply(w, step).orphans[id] == w.orphans[id]
  {
  }

  lemma {:induction false} OrphansOnlyEnd(w: World, steps: seq<Step>, id: nat)
    requires IsRun(w, steps) && NoDeath(steps) && id in After(w, steps).orphans
    ensures id in w.orphans && After(w, steps).orphans[id] == w.orphans[id]
    decreases |steps|
  {
    hide Enabled, Apply;
    if steps != [] {
      assert steps[0] in steps && forall step | step in steps[1..] :: step in steps;
      OrphansOnlyEnd(Apply(w, steps[0]), steps[1..], id);
      OrphanStep(w, steps[0], id);
    }
  }

  /** Two live workers never share a device. */
  lemma SharingTakesOrphans(w: World, key: Key)
    requires Reachable(w) && Shared(w, key)
    ensures KeptByOrphans(w, key)
  {
    hide Reachable;
    DevicesAreExclusive(w);
  }

  /** In every run in which no worker dies without cleaning up, no device is ever used by processes of two jobs. */
  lemma ExclusiveWithoutDeaths(steps: seq<Step>, key: Key)
    requires IsRun(INITIAL, steps) && NoDeath(steps)
    ensures !Shared(After(INITIAL, steps), key)
  {
    hide IsRun, After, Shared;
    var w := After(INITIAL, steps);
    if Shared(w, key) {
      SharingTakesOrphans(w, key);
      var id :| id in w.orphans && key in Keys(w.orphans[id]);
      OrphansOnlyEnd(INITIAL, steps, id);
      assert false;
    }
  }

  // ----- After a death -----

  /** No continuation without a further such death lets processes of two jobs use the device. */
  ghost predicate NeverShared(w: World, key: Key) {
    forall steps: seq<Step> | IsRun(w, steps) && NoDeath(steps) :: !Shared(After(w, steps), key)
  }

  /** Some such run of the program does. */
  ghost predicate ProgramCanShare(a: At, key: Key, cap: nat) {
    exists steps: seq<Step>, b: At :: Leads(a, steps, b, cap) && NoDeath(steps) && Shared(b.w, key)
  }

  lemma NothingKeptIsNeverShared(w: World, key: Key)
    requires Reachable(w) && !KeptByOrphans(w, key)
    ensures NeverShared(w, key)
  {
    hide Reachable, IsRun, After, Shared;
    forall steps: seq<Step> | IsRun(w, steps) && NoDeath(steps) ensures !Shared(After(w, steps), key) {
      var u := After(w, steps);
      if Shared(u, key) {
        RunIsReachable(w, steps);
        SharingTakesOrphans(u, key);
        var id :| id in u.orphans && key in Keys(u.orphans[id]);
        OrphansOnlyEnd(w, steps, id);
        assert false;
      }
    }
  }

  lemma ProgramSharing(a: At, key: Key, cap: nat)
    requires ProgramCanShare(a, key, cap)
    ensures !NeverShared(a.w, key)
  {
    hide Leads, IsRun, After, Shared, NoDeath;
    var steps: seq<Step>, b: At :| Leads(a, steps, b, cap) && NoDeath(steps) && Shared(b.w, key);
    LeadsIsRun(a, steps, b, cap);
  }

  /** Jobs whose workers died had been started. */
  ghost predicate OrphansRan(w: World) {
    forall id | id in w.orphans :: id in w.spawns
  }

  lemma {:induction false} OrphansWereSpawned(w: World, steps: seq<Step>)
    requires Inv(w) && IsRun(w, steps) && OrphansRan(w)
    ensures OrphansRan(After(w, steps))
    decreases |steps|
  {
    hide Inv, Enabled, Apply, OrphansRan;
    if steps != [] {
      OrphansHaveRun(w, steps[0]);
      StepKeeps(w, steps[0]);
      OrphansWereSpawned(Apply(w, steps[0]), steps[1..]);
    }
  }

  lemma OrphansHaveRun(w: World, step: Step)
    requires Inv(w) && Enabled(w, step) && OrphansRan(w)
    ensures OrphansRan(Apply(w, step))
  {
    hide Inv, Enabled, Apply;
    forall id | id in Apply(w, step).orphans ensures id in Apply(w, step).spawns {
      OrphanIsSpawned(w, step, id);
    }
  }

  lemma OrphanIsSpawned(w: World, step: Step, id: nat)
    requires Inv(w) && Enabled(w, step) && OrphansRan(w) && id in Apply(w, step).orphans
    ensures id in Apply(w, step).spawns
  {
    hide Inv, Enabled, Apply;
    if step == WorkerDies(id) {
      DiedWasLive(w, id);
      WorkersAreSpawned(w);
    } else {
      OrphanStep(w, step, id);
    }
    SpawnsGrow(w, step, id);
  }

  lemma DiedWasLive(w: World, id: nat)
    requires Enabled(w, WorkerDies(id))
    ensures id in w.workers
  {
  }

  lemma WorkersAreSpawned(w: World)
    requires Inv(w)
    ensures forall id | id in w.workers :: id in w.spawns
  {
    hide JobsOk, HistoryOk, PastOk, AcksOk, FilesOk, HolderOk;
  }

  lemma SpawnsGrow(w: World, step: Step, id: nat)
    requires Enabled(w, step) && id in w.spawns
    ensures id in Apply(w, step).spawns
  {
    if step.Spawn? {
      assert Apply(w, step) == DoSpawn(w);
    } else {
      hide Enabled, Apply;
      OnlySpawnSpawns(w, step);
    }
  }

  lemma OrphanHasRun(w: World, id: nat)
    requires Reachable(w) && id in w.orphans
    ensures id in w.spawns
  {
    hide Inv, Enabled, Apply, IsRun, After;
    var steps: seq<Step> :| IsRun(INITIAL, steps) && After(INITIAL, steps) == w;
    InvInitially();
    OrphansWereSpawned(INITIAL, steps);
  }

  lemma PendingHasNotRun(w: World, id: nat)
    requires Inv(w) && id in PendingIds(w.durable.jobs)
    ensures id !in w.spawns
  {
    hide AcksOk, WorkersOk, FilesOk, HolderOk;
    assert WellFormed(w.hist[id]);
  }

  /** A job that asks for one device is served by this one. */
  predicate WantsOne(w: World, id: nat, device: Device) {
    Servable(w.durable.jobs, id, [device]) && w.durable.jobs[id].spec.count == 1
  }

  /** The next daemon finds the device idle and gives it to the first job that it serves. */
  lemma KeptDeviceIsGranted(a: At, id: nat, device: Device, cap: nat)
    requires Reachable(a.w) && WantsOne(a.w, id, device) && KeptByOrphans(a.w, device.Key()) && cap > 0
    ensures ProgramCanShare(a, device.Key(), cap)
  {
    hide Reachable, Inv, Leads, Allocate;
    ReachableIsOk(a.w);
    var steps, b, first := PlaysRound(a, [device], id, cap);
    var spec := a.w.durable.jobs[first].spec;
    PendingIsValid(a.w, first);
    AllocateGrants(spec, [device], {});
    var granted := Allocate(spec, [device], {}).value;
    assert granted[0] in granted;
    assert Uses(b.w, first, device.Key());
    var kept :| kept in a.w.orphans && device.Key() in Keys(a.w.orphans[kept]);
    OrphanHasRun(a.w, kept);
    PendingHasNotRun(a.w, first);
    assert Uses(b.w, kept, device.Key()) && kept != first;
  }

  /** As soon as a pending job asks for one device and this one would do: processes of two jobs can come to use it
      without any further death, by a run of the program, exactly if processes left behind still use it. */
  lemma SharedExactlyIfKept(a: At, id: nat, device: Device, cap: nat)
    requires Reachable(a.w) && WantsOne(a.w, id, device) && cap > 0
    ensures ProgramCanShare(a, device.Key(), cap) <==> KeptByOrphans(a.w, device.Key())
    ensures NeverShared(a.w, device.Key()) <==> !KeptByOrphans(a.w, device.Key())
  {
    hide Reachable, WantsOne, KeptByOrphans, ProgramCanShare, NeverShared;
    if KeptByOrphans(a.w, device.Key()) {
      KeptDeviceIsGranted(a, id, device, cap);
    } else {
      NothingKeptIsNeverShared(a.w, device.Key());
    }
    if ProgramCanShare(a, device.Key(), cap) { ProgramSharing(a, device.Key(), cap); }
  }

  // ----- A run in which it is -----

  const GPU := Device(Nvidia, 0, "gpu", "GPU-0")
  const GPU_REQUEST := Submission(["true"], 1, None, [], Some(Nvidia), None, None)

  lemma GpuServes()
    ensures ValidRequest(GPU_REQUEST) && Allocate(GPU_REQUEST, [GPU], {}) == Some([GPU])
  {
  }

  /** A worker is killed, processes of its command use the device on, and the next job is given it. */
  lemma KilledWorkersDeviceIsShared(cap: nat) returns (a: At)
    requires cap > 0
    ensures Leads(BEFORE,
                  FirstRun([GPU], GPU_REQUEST) + [EndTick, WorkerDies(1), Step.Submit(0, GPU_REQUEST, 0, Saved)],
                  a, cap)
    ensures ProgramCanShare(a, GPU.Key(), cap)
  {
    hide Leads, Inv, Enabled, Apply, FirstSteps, Allocate;
    GpuServes();
    var run, submit := FirstRun([GPU], GPU_REQUEST), Step.Submit(0, GPU_REQUEST, 0, Saved);
    var running := FirstJobRuns([GPU], GPU_REQUEST, cap);
    var killed := FirstIsKilled(running, cap);
    LeadsFurther(BEFORE, run, running, [EndTick, WorkerDies(1)], killed, cap);
    SubmitApplies(killed.w, 0, GPU_REQUEST, 0, Saved);
    LeadsNext(BEFORE, run + [EndTick, WorkerDies(1)], killed, submit, cap);
    assert run + [EndTick, WorkerDies(1)] + [submit] == run + [EndTick, WorkerDies(1), submit];
    a := Move(killed, submit);
    IsOk(run + [EndTick, WorkerDies(1), submit], a, cap);
    assert GPU in a.w.orphans[1];
    KeptDeviceIsGranted(a, 2, GPU, cap);
  }
}
