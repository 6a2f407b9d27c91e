/** The scheduler (src/scheduler.rs): its methods update memory, the state file and the job files in the order
    of the program, and record every effect as a step of the machine, so that what they do is a run of it. */
module Schedulers {
  import opened Model
  import opened Allocator
  import opened Planner
  import opened Machine
  import opened Effects
  import opened Invariants
  import opened Preservation
  import opened Stores
  import opened Platforms
  import opened Admissions

  datatype SubmitResult = Accepted(job: Job) | Declined(reason: Refusal) | IdsExhausted | SubmitNotSaved

  datatype CancelResult = CancelOk | CancelNotFound | CancelFailed

  datatype DeviceView = DeviceView(device: Device, job: Option<nat>, status: string)

  function KeysWithIds(devices: seq<Device>, ids: seq<nat>): set<Key> {
    set d | d in devices && d.id in ids :: d.Key()
  }

  predicate KnownIds(devices: seq<Device>, ids: seq<nat>) {
    NoDuplicates(ids) && forall id | id in ids :: exists d | d in devices :: d.id == id
  }

  function Excluding(excluded: set<Key>, devices: seq<Device>, ids: seq<nat>, on: bool): set<Key> {
    if on then excluded + KeysWithIds(devices, ids) else excluded - KeysWithIds(devices, ids)
  }

  /** Device by device: a listed device ends up as asked, every other one as it was. */
  lemma ExcludingByDevice(excluded: set<Key>, devices: seq<Device>, ids: seq<nat>, on: bool, d: Device)
    requires DistinctKeys(devices) && d in devices
    ensures d.Key() in Excluding(excluded, devices, ids, on) <==> if d.id in ids then on else d.Key() in excluded
  {
    var i :| 0 <= i < |devices| && devices[i] == d;
    if d.Key() in KeysWithIds(devices, ids) {
      var e :| e in devices && e.id in ids && e.Key() == d.Key();
      var j :| 0 <= j < |devices| && devices[j] == e;
      assert i == j;
    }
  }

  /** Repeats change nothing, whatever came between them for the same devices; and an include undoes an exclude
      exactly when none of the devices was excluded before. */
  lemma ExcludingLaws(excluded: set<Key>, devices: seq<Device>, ids: seq<nat>, on: bool, between: bool)
    requires DistinctKeys(devices)
    ensures Excluding(Excluding(excluded, devices, ids, between), devices, ids, on)
              == Excluding(excluded, devices, ids, on)
    ensures Excluding(Excluding(excluded, devices, ids, true), devices, ids, false) == excluded
            <==> forall d | d in devices && d.id in ids :: d.Key() !in excluded
  {
    if Excluding(Excluding(excluded, devices, ids, true), devices, ids, false) == excluded {
      forall d | d in devices && d.id in ids ensures d.Key() !in excluded {
        ExcludingByDevice(Excluding(excluded, devices, ids, true), devices, ids, false, d);
      }
    }
  }

  /** The record of an accepted request: the caller's, but for the vendor that exact IDs settle. */
  ghost predicate IsRequested(job: Job, id: nat, owner: nat, asked: Submission, now: nat, devices: seq<Device>) {
    && job.id == id && job.owner == owner && job.submittedAt == now
    && job.state == Pending && job.devices == [] && job.startedAt == None && job.result == None
    && job.spec == asked.(kind := job.spec.kind)
    && match asked.deviceIds
       case None => job.spec.kind == asked.kind
       case Some(ids) => job.spec.kind.Some? && OnlyHolder(asked, ids, devices, job.spec.kind.value)
  }

  lemma AdmittedIsRequested(asked: Submission, directoryExists: bool, devices: seq<Device>, excluded: set<Key>, id: nat,
                            owner: nat, now: nat)
    requires Admit(asked, directoryExists, devices, excluded).Admitted?
    ensures var admitted := Admit(asked, directoryExists, devices, excluded).spec;
            IsRequested(NewJob(id, owner, admitted, now), id, owner, asked, now, devices)
  {
    AdmittedIsServable(asked, directoryExists, devices, excluded);
    hide Admit, OnlyHolder, Allocate;
  }

  /** The IDs are all different, and each is that of a device. */
  ghost predicate EachIsThere(devices: seq<Device>, ids: seq<nat>) {
    && (forall i, j | 0 <= i < j < |ids| :: ids[i] != ids[j])
    && forall k | 0 <= k < |ids| :: IsThere(devices, ids[k])
  }

  ghost predicate IsThere(devices: seq<Device>, id: nat) {
    exists p :: 0 <= p < |devices| && devices[p].id == id
  }

  ghost predicate Listed(ids: seq<nat>, id: nat) {
    exists k :: 0 <= k < |ids| && ids[k] == id
  }

  /** The devices with one of the IDs are as asked, everything else is as it was. */
  ghost predicate AreExcluded(devices: seq<Device>, ids: seq<nat>, on: bool, before: set<Key>, after: set<Key>) {
    && (forall p | 0 <= p < |devices| ::
          KeyOf(devices[p].kind, devices[p].visible) in after <==>
          if Listed(ids, devices[p].id) then on else KeyOf(devices[p].kind, devices[p].visible) in before)
    && (forall key | forall p | 0 <= p < |devices| :: KeyOf(devices[p].kind, devices[p].visible) != key ::
          key in after <==> key in before)
  }

  lemma KnownIsThere(devices: seq<Device>, ids: seq<nat>)
    ensures KnownIds(devices, ids) <==> EachIsThere(devices, ids)
  {
    if KnownIds(devices, ids) {
      forall k | 0 <= k < |ids| ensures IsThere(devices, ids[k]) {
        assert ids[k] in ids;
        var d :| d in devices && d.id == ids[k];
        var p :| 0 <= p < |devices| && devices[p] == d;
      }
    }
    if EachIsThere(devices, ids) {
      forall id | id in ids ensures exists d | d in devices :: d.id == id {
        var k :| 0 <= k < |ids| && ids[k] == id;
        var p :| 0 <= p < |devices| && devices[p].id == ids[k];
        assert devices[p] in devices;
      }
    }
  }

  lemma ExcludingIsAsAsked(excluded: set<Key>, devices: seq<Device>, ids: seq<nat>, on: bool)
    requires DistinctKeys(devices)
    ensures AreExcluded(devices, ids, on, excluded, Excluding(excluded, devices, ids, on))
  {
    var after := Excluding(excluded, devices, ids, on);
    forall p | 0 <= p < |devices|
      ensures devices[p].Key() in after <==> if Listed(ids, devices[p].id) then on else devices[p].Key() in excluded
    {
      ExcludingByDevice(excluded, devices, ids, on, devices[p]);
      assert devices[p].id in ids <==> Listed(ids, devices[p].id);
    }
    forall key | forall p | 0 <= p < |devices| :: KeyOf(devices[p].kind, devices[p].visible) != key
      ensures key in after <==> key in excluded
    {
      forall d | d in devices ensures d.Key() != key {
        var p :| 0 <= p < |devices| && devices[p] == d;
      }
    }
  }

  /** The job has as many devices as it asked for, all from the inventory, enabled, idle and not excluded by itself. */
  ghost predicate OnFreeDevices(job: Job, devices: seq<Device>, status: map<Key, string>, excluded: set<Key>) {
    |job.devices| == job.spec.count
    && forall k | 0 <= k < |job.devices| ::
         var d := job.devices[k];
         && d in devices && KeyOf(d.kind, d.visible) !in excluded
         && KeyOf(d.kind, d.visible) in status && status[KeyOf(d.kind, d.visible)] == "idle"
         && (job.spec.deviceIds.None? ==> d.id !in job.spec.excludeIds)
  }

  /** What the start loop makes of a job: nothing, a running job from now on, or a failed start with its message. */
  ghost predicate StartedOrNot(before: Job, after: Job, devices: seq<Device>, status: map<Key, string>,
                               excluded: set<Key>, failures: map<nat, string>, now: nat) {
    || after == before
    || (before.state == Pending && OnFreeDevices(after, devices, status, excluded)
        && if before.id in failures then
             after == Job(before.id, before.owner, before.spec, Failed, after.devices, before.submittedAt, Some(now),
                          Some(Outcome(Failed, 1, now, Some(failures[before.id]))))
           else
             after == Job(before.id, before.owner, before.spec, Running, after.devices, before.submittedAt, Some(now),
                          before.result))
  }

  lemma {:induction false} TickStartsOrNot(polled: seq<Job>, withheld: set<Key>, jobs: seq<Job>, withheld': set<Key>,
                                           devices: seq<Device>, status: map<Key, string>, excluded: set<Key>, cap: nat,
                                           failures: map<nat, string>, now: nat)
    requires StartLoop(polled, withheld, jobs, withheld', devices, cap, failures, now) && DistinctKeys(devices)
    requires excluded + NotIdle(devices, status) <= withheld
    ensures |jobs| == |polled|
    ensures forall i | 0 <= i < |jobs| ::
              StartedOrNot(polled[i], jobs[i], devices, status, excluded, failures, now)
  {
    hide StartLoop, DistinctKeys;
    TickGrantsFreeDevices(polled, withheld, jobs, withheld', devices, cap, failures, now);
    forall i | 0 <= i < |jobs| ensures StartedOrNot(polled[i], jobs[i], devices, status, excluded, failures, now) {
      if polled[i].state == Pending && jobs[i] != polled[i] {
        IsOnFreeDevices(polled[i], jobs[i], Plan(polled, withheld, RunningCount(polled)), devices, status, excluded,
                        failures, now);
      }
    }
  }

  lemma IsOnFreeDevices(before: Job, after: Job, p: Plan, devices: seq<Device>, status: map<Key, string>,
                        excluded: set<Key>, failures: map<nat, string>, now: nat)
    requires StartedFrom(before, after, p, devices, failures, now) && after != before && before.state == Pending
    requires excluded + NotIdle(devices, status) <= p.reserved
    ensures StartedOrNot(before, after, devices, status, excluded, failures, now)
  {
    hide Allocate, DistinctKeys;
    forall k | 0 <= k < |after.devices| ensures after.devices[k].Key() !in p.reserved {
      assert after.devices[k] in after.devices && after.devices[k].Key() in Keys(after.devices);
    }
    assert forall d | d in devices && d.Key() !in p.reserved :: d.Key() !in NotIdle(devices, status);
  }

  class Scheduler {
    const platform: Platform
    const maxRunning: nat
    var nextId: nat
    var jobs: seq<Job>
    var devices: seq<Device>
    var status: map<Key, string>
    var excluded: set<Key>
    /** The worker processes this scheduler has spawned and not yet waited for. */
    var children: set<nat>
    ghost var phase: Phase

    ghost function Memory(): Daemon
      reads this
    {
      Daemon(Ledger(nextId, Index(jobs)), devices, status, excluded, phase, children)
    }

    /** Memory and the state directory are what the recorded run has made of them. */
    ghost predicate Valid()
      reads this, platform
    {
      && Ordered(jobs) && maxRunning > 0
      && platform.Tracked() && platform.Mirrors()
      && platform.world.holder == Serving(Memory())
    }

    /** The reserved set at the beginning of a start loop. */
    function Withheld(): set<Key>
      reads this
    {
      HeldKeys(jobs) + excluded + NotIdle(devices, status)
    }

    lemma KnowInv()
      requires platform.Tracked()
      ensures Inv(platform.world)
    {
      hide Inv, Enabled, Apply;
      InvInitially();
      RunKeeps(INITIAL, platform.trace);
    }

    /** Scheduler::new on a free daemon.lock: the store is read from the state file, nothing is excluded. */
    constructor Boot(platform: Platform, devices: seq<Device>, status: map<Key, string>, maxRunning: nat)
      requires platform.Tracked() && platform.Mirrors() && !platform.locked
      requires DistinctKeys(devices) && maxRunning > 0
      modifies platform
      ensures Valid() && phase == Idle && this.platform == platform && this.maxRunning == maxRunning
      ensures this.devices == devices && this.status == status && excluded == {}
      ensures Store(nextId, jobs) == platform.durable == old(platform.durable) && platform.calls == old(platform.calls)
      ensures old(platform.trace) <= platform.trace
    {
      this.platform := platform;
      this.maxRunning := maxRunning;
      this.nextId := platform.durable.nextId;
      this.jobs := platform.durable.jobs;
      this.devices := devices;
      this.status := status;
      this.excluded := {};
      this.children := {};
      this.phase := Idle;
      new;
      hide IsRun, After;
      platform.locked := true;
      platform.Take(Step.Boot(devices, status));
    }

    /** The process ends, by a crash, a signal or an error returned from tick. */
    method Exit()
      requires Valid()
      modifies platform
      ensures platform.Tracked() && platform.Mirrors() && !platform.locked
      ensures platform.durable == old(platform.durable) && platform.trace == old(platform.trace) + [Crash]
      ensures platform.calls == old(platform.calls)
    {
      hide IsRun, After;
      platform.locked := false;
      platform.Take(Crash);
    }

    /** Between two effects of the scheduler the workers run on. */
    method WorkersRun()
      requires Valid()
      modifies platform`files, platform`workers, platform`exiting, platform`orphans, platform`world, platform`trace
      ensures Valid() && platform.OnlyWorkers() && platform.MakesNoOthers()
    {
      hide IsRun, After, Index, Ordered;
      platform.WorkersRun();
    }

    /** Monitoring reports new statuses. */
    method Refresh(status: map<Key, string>)
      requires Valid() && phase == Idle
      modifies this`status, platform`world, platform`trace
      ensures Valid() && this.status == status && old(platform.trace) <= platform.trace
    {
      hide IsRun, After;
      this.status := status;
      platform.Take(Step.Refresh(status));
    }

    /** The IDs are checked first, so a bad list changes nothing; a good one adds or removes the keys of every
        device that carries one of them. */
    method SetDevicesExcluded(ids: seq<nat>, on: bool) returns (ok: bool)
      requires Valid() && phase == Idle
      modifies this`excluded, platform`world, platform`trace
      ensures Valid() && old(platform.trace) <= platform.trace
      ensures ok == KnownIds(devices, ids)
      ensures excluded == if ok then Excluding(old(excluded), devices, ids, on) else old(excluded)
      ensures ok <==> EachIsThere(devices, ids)
      ensures ok ==> AreExcluded(devices, ids, on, old(excluded), excluded)
    {
      hide IsRun, After, Apply, Enabled, Index, Ordered, KnownIds, Platform.Tracked, Platform.Mirrors;
      hide EachIsThere, AreExcluded, DistinctKeys;
      KnownIsThere(devices, ids);
      DevicesAreDistinct();
      ExcludingIsAsAsked(excluded, devices, ids, on);
      if !KnownIds(devices, ids) { return false; }
      var i := 0;
      var result := excluded;
      while i < |devices|
        invariant 0 <= i <= |devices|
        invariant result == if on then excluded + KeysWithIds(devices[..i], ids)
                  else excluded - KeysWithIds(devices[..i], ids)
      {
        assert devices[..i + 1] == devices[..i] + [devices[i]];
        assert KeysWithIds(devices[..i + 1], ids) ==
               KeysWithIds(devices[..i], ids) + if devices[i].id in ids then {devices[i].Key()} else {};
        if devices[i].id in ids {
          result := if on then result + {devices[i].Key()} else result - {devices[i].Key()};
        }
        i := i + 1;
      }
      assert devices[..|devices|] == devices;
      Exclude(result);
      return true;
    }

    method Exclude(keys: set<Key>)
      requires Valid() && phase == Idle
      modifies this`excluded, platform`world, platform`trace
      ensures Valid() && old(platform.trace) <= platform.trace && excluded == keys
    {
      hide IsRun, After, Index, Ordered;
      excluded := keys;
      platform.Take(SetExcluded(keys));
    }

    method Submit(spec: Submission, owner: nat, directoryExists: bool, now: nat) returns (r: SubmitResult)
      requires Valid() && phase == Idle
      modifies this, platform
      ensures Valid() && phase == Idle && old(platform.trace) <= platform.trace
      ensures devices == old(devices) && excluded == old(excluded) && status == old(status)
      ensures r.Declined? <==> Admit(spec, directoryExists, devices, excluded).Refused?
      ensures r.Declined? ==> Admit(spec, directoryExists, devices, excluded) == Refused(r.reason)
      ensures r.IdsExhausted? <==> Admit(spec, directoryExists, devices, excluded).Admitted? && old(nextId) == MAX_ID
      ensures r.Declined? || r.IdsExhausted? ==>
                jobs == old(jobs) && nextId == old(nextId) && platform.durable == old(platform.durable)
      ensures r.Accepted? ==>
                && r.job == NewJob(old(nextId) + 1, owner, Admit(spec, directoryExists, devices, excluded).spec, now)
                && jobs == old(jobs) + [r.job] && nextId == old(nextId) + 1
                && platform.durable == Store(nextId, jobs)
                && platform.world.acks == old(platform.world.acks) + [r.job.id]
      ensures r.SubmitNotSaved? ==>
                && jobs == old(jobs) && nextId == old(nextId) + 1
                && var job := NewJob(nextId, owner, Admit(spec, directoryExists, devices, excluded).spec, now);
                   platform.durable in {old(platform.durable), Store(nextId, jobs + [job])}
      ensures old(platform.calls) <= platform.calls
      ensures r.SubmitNotSaved? ==> platform.Failed(old(platform.calls))
      ensures var fault, full := platform.os(old(platform.calls)), old(nextId) == 0xFFFF_FFFF_FFFF_FFFF;
              && (r.IdsExhausted? <==> WhatIsWrong(spec, directoryExists, devices, excluded).None? && full)
              && (r.Accepted? <==>
                    WhatIsWrong(spec, directoryExists, devices, excluded).None? && !full && fault == Works)
              && (r.Declined? <==> WhatIsWrong(spec, directoryExists, devices, excluded).Some?)
              && (r.Declined? ==> WhatIsWrong(spec, directoryExists, devices, excluded) == Some(r.reason))
              && (r.Accepted? ==> IsRequested(r.job, old(nextId) + 1, owner, spec, now, devices))
              && (r.SubmitNotSaved? ==>
                    if Renames(fault) then
                      exists job :: IsRequested(job, nextId, owner, spec, now, devices)
                                    && platform.durable == Store(nextId, jobs + [job])
                    else platform.durable == old(platform.durable))
      ensures forall limit | limit <= excluded && AllAdmitted(old(jobs), devices, limit) ::
                AllAdmitted(jobs, devices, limit)
    {
      hide Admit, IsRun, After, Index, AllAdmitted, WhatIsWrong, IsRequested;
      AdmitsExactly(spec, directoryExists, devices, excluded);
      var admission := Admit(spec, directoryExists, devices, excluded);
      if admission.Refused? { return Declined(admission.reason); }
      NextIdIsBounded();
      if nextId >= MAX_ID { return IdsExhausted; }
      AdmittedIsServable(spec, directoryExists, devices, excluded);
      AdmittedIsRequested(spec, directoryExists, devices, excluded, nextId + 1, owner, now);
      var job := NewJob(nextId + 1, owner, admission.spec, now);
      var saved := Enqueue(job);
      ghost var was := old(jobs);
      forall limit | limit <= excluded && AllAdmitted(was, devices, limit) ensures AllAdmitted(jobs, devices, limit) {
        AdmittedWith(was, job, devices, excluded, limit);
      }
      return if saved then Accepted(job) else SubmitNotSaved;
    }

    /** The new job is pushed and the store saved; if that fails the job is popped, but the counter stays. */
    method Enqueue(job: Job) returns (saved: bool)
      requires Valid() && phase == Idle && nextId < MAX_ID && ValidRequest(job.spec)
      requires job == NewJob(nextId + 1, job.owner, job.spec, job.submittedAt)
      modifies this`jobs, this`nextId, platform
      ensures Valid() && old(platform.trace) <= platform.trace && nextId == old(nextId) + 1
      ensures saved ==>
                && jobs == old(jobs) + [job] && platform.durable == Store(nextId, jobs)
                && platform.world.acks == old(platform.world.acks) + [job.id]
      ensures !saved ==> jobs == old(jobs)
      ensures platform.durable == if Renames(platform.os(old(platform.calls))) then Store(nextId, old(jobs) + [job])
                                  else old(platform.durable)
      ensures platform.calls == old(platform.calls) + 1 && saved == (platform.os(old(platform.calls)) == Works)
    {
      hide IsRun, After, Apply, Enabled, Index, Ordered;
      NewIdIsLast();
      OrderedPush(jobs, job);
      IndexPush(jobs, job);
      nextId := job.id;
      jobs := jobs + [job];
      var save := platform.WriteState(Store(nextId, jobs));
      SubmitEffect(platform.world, job, save);
      platform.Take(Step.Submit(job.owner, job.spec, job.submittedAt, save));
      if !save.Saved? {
        jobs := jobs[..|jobs| - 1];
        assert jobs == old(jobs);
      }
      return save.Saved?;
    }

    lemma NextIdIsBounded()
      requires Valid() && !phase.Failing?
      ensures nextId <= MAX_ID
    {
      hide IsRun, After;
      KnowInv();
      hide JobsOk, HistoryOk, PastOk, AcksOk, WorkersOk, FilesOk, Covers, SpawnedIsKept, Agree;
    }

    lemma NewIdIsLast()
      requires Valid() && !phase.Failing?
      ensures forall i | 0 <= i < |jobs| :: jobs[i].id <= nextId
    {
      hide IsRun, After, JobsOk, HistoryOk, PastOk, AcksOk, WorkersOk, FilesOk, Ahead, Covers, SpawnedIsKept, Agree;
      KnowInv();
      NewIdIsNew(platform.world, Memory());
      IndexIsExact(jobs);
    }

    method Get(id: nat) returns (r: Option<Job>)
      requires Valid()
      ensures r.Some? ==> r.value in jobs && r.value.id == id
      ensures r.None? ==> forall job | job in jobs :: job.id != id
    {
      match Find(jobs, id)
      case None => return None;
      case Some(i) => return Some(jobs[i]);
    }

    /** A pending job is cancelled here and the store is saved; a running one is told through its cancel file;
        for a finished one there is nothing to do. */
    method Cancel(id: nat, now: nat) returns (r: CancelResult)
      requires Valid() && phase == Idle
      modifies this`jobs, platform
      ensures Valid() && old(platform.trace) <= platform.trace
      ensures r == CancelNotFound <==> Find(old(jobs), id).None?
      ensures Find(old(jobs), id).None? ==> jobs == old(jobs) && platform.durable == old(platform.durable)
      ensures Find(old(jobs), id).Some? ==>
                var i := Find(old(jobs), id).value;
                var job := old(jobs)[i];
                if job.state == Pending then
                  && jobs == old(jobs)[i := job.Finish(Revocation(now))]
                  && (r == CancelOk ==> platform.durable == Store(nextId, jobs) && id in platform.world.revoked)
                  && (r == CancelFailed ==> platform.durable in {old(platform.durable), Store(nextId, jobs)})
                else
                  && jobs == old(jobs) && platform.durable == old(platform.durable)
                  && (if job.state == Running then r == CancelOk ==> FileName(id, CancelFile) in platform.files
                      else r == CancelOk && platform.files == old(platform.files))
      ensures old(platform.calls) <= platform.calls
      ensures r == CancelFailed ==> platform.Failed(old(platform.calls))
      ensures (forall i | 0 <= i < |jobs| :: old(jobs)[i].id != id) ==> r == CancelNotFound
      ensures forall i | 0 <= i < |old(jobs)| && old(jobs)[i].id == id ::
                var job, fault := old(jobs)[i], platform.os(old(platform.calls));
                match job.state
                case Pending =>
                  && jobs == old(jobs)[i := Job(id, job.owner, job.spec, Cancelled, job.devices, job.submittedAt,
                                                job.startedAt, Some(Outcome(Cancelled, 130, now, None)))]
                  && platform.durable == (if Renames(fault) then Store(nextId, jobs) else old(platform.durable))
                  && r == if fault == Works then CancelOk else CancelFailed
                case Running =>
                  && jobs == old(jobs) && platform.durable == old(platform.durable)
                  && r == (if fault == Works then CancelOk else CancelFailed)
                  && (FileName(id, CancelFile) in platform.files <==>
                      FileName(id, CancelFile) in old(platform.files) || Renames(fault))
                case _ =>
                  && jobs == old(jobs) && platform.durable == old(platform.durable)
                  && platform.files == old(platform.files) && r == CancelOk
      ensures forall limit | AllAdmitted(old(jobs), devices, limit) :: AllAdmitted(jobs, devices, limit)
    {
      hide IsRun, After, Index, Apply, Enabled;
      var found := Find(jobs, id);
      if found.None? { return CancelNotFound; }
      var i := found.value;
      IndexIsExact(jobs);
      match jobs[i].state
      case Pending =>
        var saved := CancelPendingJob(i, now);
        return if saved then CancelOk else CancelFailed;
      case Running =>
        var written := WriteCancelFile(id);
        return if written then CancelOk else CancelFailed;
      case _ =>
        CancelFinishedJob(i);
        return CancelOk;
    }

    method CancelPendingJob(i: nat, now: nat) returns (saved: bool)
      requires Valid() && phase == Idle && i < |jobs| && jobs[i].state == Pending
      modifies this`jobs, platform
      ensures Valid() && old(platform.trace) <= platform.trace
      ensures jobs == old(jobs)[i := old(jobs)[i].Finish(Revocation(now))]
      ensures saved ==> platform.durable == Store(nextId, jobs) && jobs[i].id in platform.world.revoked
      ensures platform.durable == if Renames(platform.os(old(platform.calls))) then Store(nextId, jobs)
                                  else old(platform.durable)
      ensures platform.calls == old(platform.calls) + 1 && saved == (platform.os(old(platform.calls)) == Works)
    {
      hide IsRun, After, Apply, Enabled, Index, Ordered;
      var job := jobs[i];
      IndexIsExact(jobs);
      IndexUpdate(jobs, i, job.Finish(Revocation(now)));
      jobs := jobs[i := job.Finish(Revocation(now))];
      var save := platform.WriteState(Store(nextId, jobs));
      CancelEffect(platform.world, job, now, save);
      platform.Take(CancelPending(job.id, now, save));
      return save.Saved?;
    }

    method CancelFinishedJob(i: nat)
      requires Valid() && phase == Idle && i < |jobs| && jobs[i].state.Terminal()
      modifies platform`world, platform`trace
      ensures Valid() && old(platform.trace) <= platform.trace
    {
      hide IsRun, After;
      IndexIsExact(jobs);
      platform.Take(CancelFinished(jobs[i].id));
    }

    /** write_json on the cancel file; it may fail after the rename, and then the worker stops all the same. */
    method WriteCancelFile(id: nat) returns (written: bool)
      requires Valid() && phase == Idle && id in Index(jobs) && Index(jobs)[id].state == Running
      modifies platform
      ensures Valid() && old(platform.trace) <= platform.trace && platform.durable == old(platform.durable)
      ensures FileName(id, CancelFile) in platform.files <==>
              FileName(id, CancelFile) in old(platform.files) || Renames(platform.os(old(platform.calls)))
      ensures platform.calls == old(platform.calls) + 1 && written == (platform.os(old(platform.calls)) == Works)
    {
      hide IsRun, After, Apply, Enabled, Index, Ordered;
      WorkersRun();
      var fault := platform.Call();
      var left := LeftOf(fault, CancelFile);
      CancelFileEffect(platform.world, id, left);
      platform.files := LeaveBehind(platform.files, id, left, []);
      platform.Take(CancelRunning(id, left));
      return fault.Works?;
    }

    // ----- The first half of a tick: polling -----

    /** One of the three saves of a tick: after the polls, before a start, after a failed start. */
    method SaveInTick() returns (ok: bool)
      requires Valid() && (phase == Polling(true) || phase.Granted? || phase.Rejected?)
      modifies this`phase, platform
      ensures Valid() && old(platform.trace) <= platform.trace
      ensures phase == if !ok then Failing else if old(phase).Granted? then Persisted(old(phase).id) else Granting
      ensures ok ==> platform.durable == Store(nextId, jobs)
      ensures platform.world.spawns == old(platform.world.spawns)
      ensures platform.calls == old(platform.calls) + 1 && ok == (platform.os(old(platform.calls)) == Works)
    {
      hide IsRun, After, Apply, Enabled, Index, Ordered;
      var save := platform.WriteState(Store(nextId, jobs));
      ghost var step := if phase.Polling? then EndPolls(save) else if phase.Granted? then Persist(save)
          else RecordRejection(save);
      TickSaveEffect(platform.world, step, save);
      phase := if !save.Saved? then Failing else if phase.Granted? then Persisted(phase.id) else Granting;
      platform.Take(step);
      return save.Saved?;
    }

    method BeginPolling()
      requires Valid() && phase == Idle
      modifies this`phase, platform`world, platform`trace
      ensures Valid() && old(platform.trace) <= platform.trace && phase == Polling(false)
      ensures platform.world.spawns == old(platform.world.spawns)
      ensures platform.calls == old(platform.calls)
    {
      hide IsRun, After, Apply, Enabled, Index, Ordered;
      PhaseEffect(platform.world, BeginTick, Polling(false));
      phase := Polling(false);
      platform.Take(BeginTick);
    }

    /** The store is saved only if a poll has changed it. */
    method EndPolling(changed: bool) returns (ok: bool)
      requires Valid() && phase == Polling(changed)
      modifies this`phase, platform
      ensures Valid() && old(platform.trace) <= platform.trace
      ensures phase == if ok then Granting else Failing
      ensures ok ==> platform.durable == if changed then Store(nextId, jobs) else old(platform.durable)
      ensures platform.world.spawns == old(platform.world.spawns)
      ensures old(platform.calls) <= platform.calls
      ensures !ok ==> platform.Failed(old(platform.calls))
    {
      hide IsRun, After, Apply, Enabled, Index, Ordered;
      if changed {
        ok := SaveInTick();
      } else {
        PhaseEffect(platform.world, EndPolls(Saved), Granting);
        phase := Granting;
        platform.Take(EndPolls(Saved));
        ok := true;
      }
    }

    /** What the executor says of a running job. */
    method AskExecutor(i: nat, now: nat) returns (r: PollResult)
      requires Valid() && phase.Polling? && i < |jobs| && jobs[i].state == Running
      modifies platform
      ensures Valid() && old(platform.trace) <= platform.trace && platform.durable == old(platform.durable)
      ensures r.Busy? ==> jobs[i].id in platform.workers
      ensures r.Ended? ==>
                && IsGone(platform.world, jobs[i].id) && Tells(platform.files, jobs[i].id, now, r.outcome)
                && r.outcome == PolledOutcome(platform.files, jobs[i].id, now)
      ensures platform.world.spawns == old(platform.world.spawns)
      ensures platform.calls == old(platform.calls) + 1 && (r.PollError? ==> platform.os(old(platform.calls)).Fails?)
    {
      hide IsRun, After, Apply, Enabled, Index, Ordered, PolledOutcome, Tells, Platform.MakesNoOthers;
      WorkersRun();
      IndexIsExact(jobs);
      r := platform.Poll(jobs[i].id, now, jobs[i].id in children);
    }

    method PollOne(i: nat, now: nat) returns (ok: bool, ended: bool, ghost outcome: Outcome)
      requires Valid() && phase.Polling? && i < |jobs| && jobs[i].state == Running
      modifies this`jobs, this`phase, this`children, platform
      ensures Valid() && old(platform.trace) <= platform.trace && platform.durable == old(platform.durable)
      ensures !ok ==> phase == Failing
      ensures !ok || !ended ==> jobs == old(jobs)
      ensures ok && !ended ==> phase == old(phase)
      ensures ok && ended ==> phase == Polling(true)
      ensures ok && ended ==> outcome.state.Terminal() && jobs == old(jobs)[i := old(jobs)[i].Finish(outcome)]
      ensures ok && ended ==> Tells(platform.files, old(jobs)[i].id, now, outcome)
      ensures ok ==> Polled(old(jobs)[i].id, jobs[i], now, platform.trace[|old(platform.trace)|..])
      ensures platform.world.spawns == old(platform.world.spawns)
      ensures platform.calls == old(platform.calls) + 1 && (!ok ==> platform.os(old(platform.calls)).Fails?)
    {
      hide IsRun, After, Apply, Enabled, Index, Ordered, Polled, PolledOutcome, Tells;
      var id := jobs[i].id;
      var r := AskExecutor(i, now);
      outcome := Failure("", now);
      match r
      case PollError =>
        PollMissed(i, false);
        return false, false, outcome;
      case Busy =>
        PollMissed(i, true);
        PolledLast(id, jobs[i], now, platform.trace, |old(platform.trace)|);
        return true, false, outcome;
      case Ended(told) =>
        FinishPolled(i, told, now);
        PolledLast(id, jobs[i], now, platform.trace, |old(platform.trace)|);
        return true, true, told;
    }

    /** The poll failed, or found the worker busy. */
    ghost method PollMissed(i: nat, busy: bool)
      requires Valid() && phase.Polling? && i < |jobs| && jobs[i].state == Running
      requires busy ==> jobs[i].id in platform.workers
      modifies this`phase, platform`world, platform`trace
      ensures Valid() && phase == if busy then old(phase) else Failing
      ensures platform.trace == old(platform.trace) + [if busy then PollBusy(jobs[i].id) else PollFails(jobs[i].id)]
      ensures platform.world.spawns == old(platform.world.spawns)
    {
      hide IsRun, After, Apply, Enabled, Index, Ordered;
      var id := jobs[i].id;
      IndexIsExact(jobs);
      PollMissEffect(platform.world, id);
      if busy {
        platform.Take(PollBusy(id));
      } else {
        phase := Failing;
        platform.Take(PollFails(id));
      }
    }

    /** The poll found the worker gone: its outcome is the job's. */
    method FinishPolled(i: nat, outcome: Outcome, now: nat)
      requires Valid() && phase.Polling? && i < |jobs| && jobs[i].state == Running
      requires IsGone(platform.world, jobs[i].id) && outcome == PolledOutcome(platform.files, jobs[i].id, now)
      modifies this`jobs, this`phase, this`children, platform`world, platform`trace
      ensures Valid() && phase == Polling(true) && outcome.state.Terminal()
      ensures jobs == old(jobs)[i := old(jobs)[i].Finish(outcome)]
      ensures platform.trace == old(platform.trace) + [PollDone(old(jobs)[i].id, now)]
      ensures platform.world.spawns == old(platform.world.spawns)
    {
      hide IsRun, After, Apply, Enabled, Index, Ordered, PolledOutcome;
      var id := jobs[i].id;
      IndexIsExact(jobs);
      PollEffect(platform.world, id, now);
      OutcomeIsTerminal(id, now);
      IndexUpdate(jobs, i, jobs[i].Finish(outcome));
      jobs := jobs[i := jobs[i].Finish(outcome)];
      children := children - {id};
      phase := Polling(true);
      platform.Take(PollDone(id, now));
    }

    lemma OutcomeIsTerminal(id: nat, now: nat)
      requires platform.Tracked() && platform.world.holder.Serving? && platform.world.holder.d.phase.Polling?
      requires HasJob(platform.world, id, Running) && id !in platform.world.workers
      ensures PolledOutcome(platform.world.files, id, now).state.Terminal()
    {
      hide IsRun, After, Inv;
      KnowInv();
      PolledIsSavable(platform.world, id, now);
    }

    method PollAll(now: nat) returns (ok: bool)
      requires Valid() && phase == Idle
      modifies this`jobs, this`phase, this`children, platform
      ensures Valid() && old(platform.trace) <= platform.trace
      ensures phase == if ok then Granting else Failing
      ensures AllPolledFrom(old(jobs), jobs)
      ensures ok ==> AllPolled(old(jobs), |jobs|, jobs, now, platform.trace[|old(platform.trace)|..])
      ensures ok ==> SavedOrSame(old(platform.durable), old(jobs), platform.durable, Store(nextId, jobs))
      ensures platform.world.spawns == old(platform.world.spawns)
      ensures old(platform.calls) <= platform.calls
      ensures !ok ==> platform.Failed(old(platform.calls))
    {
      hide IsRun, After, Apply, Enabled, Index, Ordered, PolledFrom, Polled, AllPolled, AllPolledFrom,
           Platform.Tracked, Platform.Mirrors;
      ghost var start := jobs;
      BeginPolling();
      ghost var base := |platform.trace|;
      NothingPolled(jobs);
      NonePolled(jobs, now);
      assert platform.trace[base..] == [];
      var i := 0;
      var changed := false;
      while i < |jobs|
        invariant 0 <= i <= |jobs| == |start| && Valid() && phase == Polling(changed)
        invariant old(platform.trace) <= platform.trace && |old(platform.trace)| <= base <= |platform.trace|
        invariant AllPolledFrom(start, jobs) && AllPolled(start, i, jobs, now, platform.trace[base..])
        invariant platform.durable == old(platform.durable) && (!changed ==> jobs == start)
        invariant platform.world.spawns == old(platform.world.spawns) && old(platform.calls) <= platform.calls
      {
        ghost var before, steps := jobs, platform.trace;
        if jobs[i].state == Running {
          var ended: bool;
          ghost var outcome: Outcome;
          ok, ended, outcome := PollOne(i, now);
          if !ok { return; }
          if ended {
            changed := true;
            PolledOnce(start, before, i, outcome);
          }
        }
        PolledNext(start, i, before, jobs, now, steps[base..], platform.trace[|steps|..]);
        assert platform.trace[base..] == steps[base..] + platform.trace[|steps|..];
        i := i + 1;
      }
      ghost var polling := platform.trace;
      ok := EndPolling(changed);
      PolledLater(start, jobs, now, polling[base..], platform.trace[|old(platform.trace)|..]);
    }

    // ----- ProcessExecutor::start -----

    /** The start of a granted and persisted job: lock, job file, log, worker. Every failure leaves no worker. */
    method Launch(i: nat, now: nat) returns (error: Option<string>)
      requires Valid() && i < |jobs| && jobs[i].state == Running && phase == Persisted(jobs[i].id)
      modifies this`jobs, this`phase, this`children, platform
      ensures Valid() && old(platform.trace) <= platform.trace && platform.durable == old(platform.durable)
      ensures error.None? ==> phase == Granting && jobs == old(jobs)
      ensures error.Some? ==>
                phase == Rejected(old(jobs[i].id))
                    && jobs == old(jobs)[i := old(jobs)[i].Finish(Failure(error.value, now))]
      ensures platform.world.spawns ==
              old(platform.world.spawns) + if error.None? then multiset{old(jobs[i].id)} else multiset{}
      ensures old(platform.calls) <= platform.calls
      ensures error.Some? ==> platform.FailedWith(old(platform.calls), error.value)
    {
      hide IsRun, After, Apply, Enabled, Index, Ordered, Platform.Tracked, Platform.Mirrors;
      var fault, left := TakeJobLock(i);
      if fault.Works? {
        fault, left := WriteJobFile(i);
        if fault.Works? {
          fault, left := SpawnWorker(i);
          if fault.Works? { return None; }
        }
      }
      StartFailed(i, fault.message, now, left);
      return Some(fault.message);
    }

    /** try_lock on the job's lock file, which is free: the job has never had a worker. */
    method TakeJobLock(i: nat) returns (fault: Fault, left: Option<Ext>)
      requires Valid() && i < |jobs| && jobs[i].state == Running && phase == Persisted(jobs[i].id)
      modifies this`phase, platform
      ensures Valid() && old(platform.trace) <= platform.trace && platform.durable == old(platform.durable)
      ensures platform.calls == old(platform.calls) + 1 && fault == platform.os(old(platform.calls))
      ensures phase == if fault.Works? then Locked(jobs[i].id) else Persisted(jobs[i].id)
      ensures fault.Fails? ==> left in MayLeave(phase)
      ensures platform.world.spawns == old(platform.world.spawns)
    {
      hide IsRun, After, Apply, Enabled, Index, Ordered, Platform.MakesNoOthers;
      var id := jobs[i].id;
      WorkersRun();
      IndexIsExact(jobs);
      NoWorkerYet(id);
      fault := platform.Call();
      if fault.Fails? { return fault, if fault.at == 0 then None else Some(LockFile); }
      LockEffect(platform.world);
      platform.files := Touch(platform.files, FileName(id, LockFile), Marker);
      phase := Locked(id);
      platform.Take(TakeLock);
      return fault, None;
    }

    lemma NoWorkerYet(id: nat)
      requires Valid() && phase == Persisted(id)
      ensures id !in platform.workers
    {
      hide IsRun, After, JobsOk, HistoryOk, PastOk, AcksOk, FilesOk, Ahead, Covers, SpawnedIsKept, Agree;
      KnowInv();
    }

    method WriteJobFile(i: nat) returns (fault: Fault, left: Option<Ext>)
      requires Valid() && i < |jobs| && jobs[i].state == Running && phase == Locked(jobs[i].id)
      modifies this`phase, platform
      ensures Valid() && old(platform.trace) <= platform.trace && platform.durable == old(platform.durable)
      ensures platform.calls == old(platform.calls) + 1 && fault == platform.os(old(platform.calls))
      ensures phase == if fault.Works? then Described(jobs[i].id) else Locked(jobs[i].id)
      ensures fault.Fails? ==> left in MayLeave(phase)
      ensures platform.world.spawns == old(platform.world.spawns)
    {
      hide IsRun, After, Apply, Enabled, Index, Ordered, Platform.MakesNoOthers;
      var id := jobs[i].id;
      WorkersRun();
      IndexIsExact(jobs);
      fault := platform.Call();
      if fault.Fails? { return fault, LeftOf(fault, JobFile); }
      DescribeEffect(platform.world);
      platform.files := platform.files[FileName(id, JobFile) := Description(jobs[i].devices)];
      phase := Described(id);
      platform.Take(Describe);
      return fault, None;
    }

    /** The log is opened, and the worker is spawned with the lock and reads the job file. */
    method SpawnWorker(i: nat) returns (fault: Fault, left: Option<Ext>)
      requires Valid() && i < |jobs| && jobs[i].state == Running && phase == Described(jobs[i].id)
      modifies this`phase, this`children, platform
      ensures Valid() && old(platform.trace) <= platform.trace && platform.durable == old(platform.durable)
      ensures platform.calls == old(platform.calls) + 1 && fault == platform.os(old(platform.calls))
      ensures if fault.Works? then phase == Granting else phase == Described(jobs[i].id) && left in MayLeave(phase)
      ensures platform.world.spawns ==
              old(platform.world.spawns) + if fault.Works? then multiset{jobs[i].id} else multiset{}
    {
      hide IsRun, After, Apply, Enabled, Index, Ordered, Platform.MakesNoOthers;
      var id := jobs[i].id;
      WorkersRun();
      IndexIsExact(jobs);
      JobFileIsThere(id);
      fault := platform.Call();
      if fault.Fails? { return fault, if fault.at == 0 then None else Some(LogFile); }
      Fork(i);
      return fault, None;
    }

    method Fork(i: nat)
      requires Valid() && i < |jobs| && jobs[i].state == Running && phase == Described(jobs[i].id)
      requires CanSpawn(platform.world)
      modifies this`phase, this`children, platform`files, platform`workers, platform`world, platform`trace
      ensures Valid() && phase == Granting && old(platform.trace) <= platform.trace
      ensures platform.world.spawns == old(platform.world.spawns) + multiset{jobs[i].id}
    {
      hide IsRun, After, Apply, Enabled, Index, Ordered;
      var id := jobs[i].id;
      SpawnEffect(platform.world);
      platform.workers := platform.workers[id := Worker(platform.files[FileName(id, JobFile)].devices, false)];
      platform.files := Touch(platform.files, FileName(id, LogFile), Text([]));
      children := children + {id};
      phase := Granting;
      platform.Take(Spawn);
    }

    lemma JobFileIsThere(id: nat)
      requires Valid() && phase == Described(id)
      ensures CanSpawn(platform.world)
      ensures FileName(id, JobFile) in platform.files && platform.files[FileName(id, JobFile)].Description?
    {
      hide IsRun, After, JobsOk, HistoryOk, PastOk, AcksOk, WorkersOk, FilesOk, Ahead, Covers, SpawnedIsKept, Agree;
      KnowInv();
    }

    method StartFailed(i: nat, message: string, now: nat, left: Option<Ext>)
      requires Valid() && i < |jobs| && jobs[i].state == Running
      requires phase in {Persisted(jobs[i].id), Locked(jobs[i].id), Described(jobs[i].id)} && left in MayLeave(phase)
      modifies this`jobs, this`phase, platform
      ensures Valid() && old(platform.trace) <= platform.trace && platform.durable == old(platform.durable)
      ensures phase == Rejected(old(jobs[i].id)) && jobs == old(jobs)[i := old(jobs)[i].Finish(Failure(message, now))]
      ensures platform.world.spawns == old(platform.world.spawns)
      ensures platform.calls == old(platform.calls)
    {
      hide IsRun, After, Apply, Enabled, Index, Ordered;
      var job := jobs[i];
      IndexIsExact(jobs);
      StartFailsEffect(platform.world, message, now, left);
      IndexUpdate(jobs, i, job.Finish(Failure(message, now)));
      platform.files := LeaveBehind(platform.files, job.id, left, job.devices);
      jobs := jobs[i := job.Finish(Failure(message, now))];
      phase := Rejected(job.id);
      platform.Take(StartFails(message, now, left));
    }

    // ----- The second half of a tick: starting -----

    lemma ReservedIsWithheld()
      requires Ordered(jobs)
      ensures Reserved(Memory()) == Withheld()
    {
      HeldKeysAreHeld(jobs);
    }

    /** Memory gives the job its devices and marks it running. */
    method GrantDevices(i: nat, granted: seq<Device>, now: nat)
      requires Valid() && phase == Granting && i < |jobs| && jobs[i].state == Pending
      requires Allocate(jobs[i].spec, devices, Withheld()) == Some(granted)
      modifies this`jobs, this`phase, platform`world, platform`trace
      ensures Valid() && old(platform.trace) <= platform.trace
      ensures phase == Granted(old(jobs[i].id)) && jobs == old(jobs)[i := old(jobs)[i].Start(granted, now)]
      ensures platform.world.spawns == old(platform.world.spawns)
    {
      hide IsRun, After, Apply, Enabled, Index, Ordered, Allocate, Held, HeldKeys;
      var job := jobs[i];
      IndexIsExact(jobs);
      ReservedIsWithheld();
      GrantEffect(platform.world, job.id, now);
      IndexUpdate(jobs, i, job.Start(granted, now));
      jobs := jobs[i := job.Start(granted, now)];
      phase := Granted(job.id);
      platform.Take(Grant(job.id, now));
    }

    /** A job that has been given devices: memory, save, launch, and the record of a launch that fails. */
    method StartGranted(i: nat, granted: seq<Device>, now: nat) returns (ok: bool, failure: Option<string>)
      requires Valid() && phase == Granting && i < |jobs| && jobs[i].state == Pending
      requires Allocate(jobs[i].spec, devices, Withheld()) == Some(granted)
      modifies this`jobs, this`phase, this`children, platform
      ensures Valid() && old(platform.trace) <= platform.trace
      ensures phase == if ok then Granting else Failing
      ensures ok ==>
                var started := old(jobs[i]).Start(granted, now);
                && jobs == old(jobs)[i := if failure.Some? then started.Finish(Failure(failure.value, now))
                    else started]
                && platform.durable == Store(nextId, jobs)
                && platform.world.spawns ==
                   old(platform.world.spawns) + if failure.None? then multiset{started.id} else multiset{}
      ensures old(platform.calls) <= platform.calls
      ensures !ok ==> platform.Failed(old(platform.calls))
      ensures failure.Some? ==> platform.FailedWith(old(platform.calls), failure.value)
    {
      hide IsRun, After, Apply, Enabled, Index, Ordered, Allocate, HeldKeys, Platform.Tracked, Platform.Mirrors;
      failure := None;
      GrantDevices(i, granted, now);
      ok := SaveInTick();
      if !ok { return; }
      failure := Launch(i, now);
      if failure.Some? { ok := SaveInTick(); }
    }

    /** One iteration of the start loop; the failure, if any, is what the failed start reported. */
    method StartNext(i: nat, reserved: set<Key>, running: nat, now: nat)
      returns (ok: bool, reserved': set<Key>, running': nat, failure: Option<string>)
      requires Valid() && phase == Granting && i < |jobs| && jobs[i].state == Pending && reserved == Withheld()
      modifies this`jobs, this`phase, this`children, platform
      ensures Valid() && old(platform.trace) <= platform.trace
      ensures phase == if ok then Granting else Failing
      ensures ok ==> reserved' == Withheld()
      ensures ok ==>
                Plan(jobs, reserved', running') ==
                StartOne(i, Plan(old(jobs), reserved, running), devices,
                         if failure.Some? then map[old(jobs[i].id) := failure.value] else map[], now)
      ensures ok ==> SavedOrSame(old(platform.durable), old(jobs), platform.durable, Store(nextId, jobs))
      ensures ok ==> platform.world.spawns ==
                     old(platform.world.spawns) + if jobs[i].state == Running then multiset{jobs[i].id} else multiset{}
      ensures old(platform.calls) <= platform.calls
      ensures !ok ==> platform.Failed(old(platform.calls))
      ensures failure.Some? ==> platform.FailedWith(old(platform.calls), failure.value)
    {
      hide IsRun, After, Apply, Enabled, Index, Ordered, Allocate, HeldKeys, Platform.Tracked, Platform.Mirrors;
      reserved', running', failure := reserved, running, None;
      var granted := Allocate(jobs[i].spec, devices, reserved);
      if granted.None? { return true, reserved, running, None; }
      ok, failure := StartGranted(i, granted.value, now);
      if ok {
        HeldKeysUpdate(old(jobs), i, jobs[i]);
        if failure.None? { reserved', running' := reserved + Keys(granted.value), running + 1; }
      }
    }

    lemma PendingIsReady()
      requires Valid() && !phase.Failing?
      ensures Ready(StartOrder(jobs), Plan(jobs, Withheld(), RunningCount(jobs))) && DistinctIds(jobs)
      ensures DistinctKeys(devices)
    {
      hide IsRun, After, HistoryOk, PastOk, AcksOk, WorkersOk, FilesOk, Ahead, Covers, SpawnedIsKept, Agree;
      KnowInv();
      IndexIsExact(jobs);
      forall i | 0 <= i < |jobs| && jobs[i].state == Pending ensures ValidRequest(jobs[i].spec) {
        assert WellFormed(Index(jobs)[jobs[i].id]);
      }
      OrderIsReady(jobs, Plan(jobs, Withheld(), RunningCount(jobs)));
    }

    /** The start loop computes Greedy on the pending jobs in start order. */
    method StartAll(now: nat) returns (ok: bool, ghost failures: map<nat, string>)
      requires Valid() && phase == Granting
      modifies this`jobs, this`phase, this`children, platform
      ensures Valid() && old(platform.trace) <= platform.trace
      ensures phase == if ok then Idle else Failing
      ensures ok ==> StartLoop(old(jobs), old(Withheld()), jobs, Withheld(), devices, maxRunning, failures, now)
      ensures ok ==> SavedOrSame(old(platform.durable), old(jobs), platform.durable, Store(nextId, jobs))
      ensures ok ==> OneSpawnEach(old(platform.world.spawns), platform.world.spawns, old(jobs), jobs)
      ensures old(platform.calls) <= platform.calls
      ensures !ok ==> platform.Failed(old(platform.calls))
      ensures forall id | id in failures :: platform.FailedWith(old(platform.calls), failures[id])
    {
      hide IsRun, After, Apply, Enabled, Index, Ordered, Allocate, HeldKeys, StartOne, Ready, DistinctIds, StartLoop,
           Platform.Tracked, Platform.Mirrors, StartOrder, RunningCount, OneSpawnEach, Looping;
      ghost var p := Plan(jobs, Withheld(), RunningCount(jobs));
      var reserved: set<Key>, running: nat := Withheld(), RunningCount(jobs);
      var order := StartOrder(jobs);
      PendingIsReady();
      failures := map[];
      LoopingStarts(p, devices, maxRunning, now, platform.world.spawns);
      var k := 0;
      while k < |order| && running < maxRunning
        invariant 0 <= k <= |order| && Valid() && phase == Granting && reserved == Withheld()
        invariant old(platform.trace) <= platform.trace
        invariant Looping(p, k, Plan(jobs, reserved, running), devices, maxRunning, failures, now,
                          old(platform.world.spawns), platform.world.spawns)
        invariant SavedOrSame(old(platform.durable), p.jobs, platform.durable, Store(nextId, jobs))
        invariant old(platform.calls) <= platform.calls
        invariant forall id | id in failures :: platform.FailedWith(old(platform.calls), failures[id])
      {
        ghost var q, spawns := Plan(jobs, reserved, running), platform.world.spawns;
        LoopingNext(p, k, q, devices, maxRunning, failures, now, old(platform.world.spawns), spawns);
        var failure: Option<string>;
        ok, reserved, running, failure := StartNext(order[k], reserved, running, now);
        if !ok { return; }
        LoopingAdvances(p, k, q, devices, maxRunning, failures, now, old(platform.world.spawns), spawns,
                        Plan(jobs, reserved, running), failure, platform.world.spawns);
        failures := if failure.Some? then failures[q.jobs[order[k]].id := failure.value] else failures;
        k := k + 1;
      }
      LoopingEnds(p, k, Plan(jobs, reserved, running), devices, maxRunning, failures, now,
                  old(platform.world.spawns), platform.world.spawns);
      FinishTick();
      ok := true;
    }

    ghost method FinishTick()
      requires Valid() && phase == Granting
      modifies this`phase, platform`world, platform`trace
      ensures Valid() && phase == Idle && old(platform.trace) <= platform.trace
      ensures platform.world.spawns == old(platform.world.spawns)
    {
      hide IsRun, After, Apply, Enabled, Index, Ordered, HeldKeys;
      PhaseEffect(platform.world, EndTick, Idle);
      phase := Idle;
      platform.Take(EndTick);
    }

    /** A tick: poll the running jobs, save if any finished, then start pending jobs, largest request first.
        An error from any save or poll ends it, and with it the process. */
    method Tick(now: nat)
      returns (ok: bool, ghost polled: seq<Job>, ghost withheld: set<Key>, ghost failures: map<nat, string>)
      requires Valid() && phase == Idle
      modifies this`jobs, this`phase, this`children, platform
      ensures Valid() && old(platform.trace) <= platform.trace
      ensures phase == if ok then Idle else Failing
      ensures ok ==> AllPolledFrom(old(jobs), polled)
      ensures ok ==> withheld == HeldKeys(polled) + excluded + NotIdle(devices, status)
      ensures ok ==> AllPolled(old(jobs), |polled|, polled, now, platform.trace[|old(platform.trace)|..])
      ensures ok ==> SavedOrSame(old(platform.durable), old(jobs), platform.durable, Store(nextId, jobs))
      ensures ok ==> StartLoop(polled, withheld, jobs, Withheld(), devices, maxRunning, failures, now)
      ensures ok ==> DistinctKeys(devices) && WorkConserved(jobs, Withheld(), devices, maxRunning)
      ensures ok ==> RunningCount(jobs) <= if RunningCount(polled) < maxRunning then maxRunning
                else RunningCount(polled)
      ensures ok ==> (RunningCount(jobs) <= maxRunning <==> RunningCount(polled) <= maxRunning)
      ensures ok ==> forall limit | AllAdmitted(old(jobs), devices, limit) :: AllAdmitted(jobs, devices, limit)
      ensures ok ==> OneSpawnEach(old(platform.world.spawns), platform.world.spawns, polled, jobs)
      ensures ok ==>
                |jobs| == |polled| && forall i | 0 <= i < |jobs| ::
                  && StartedOrNot(polled[i], jobs[i], devices, status, excluded, failures, now)
                  && (jobs[i].state == Running ==> jobs[i].result == None)
      ensures ok ==> SharesNoDevice()
      ensures old(platform.calls) <= platform.calls
      ensures !ok ==> platform.Failed(old(platform.calls))
      ensures forall id | id in failures :: platform.FailedWith(old(platform.calls), failures[id])
    {
      hide IsRun, After, Apply, Enabled, Index, Ordered, Platform.Tracked, Platform.Mirrors, StartLoop, AllPolledFrom,
           HeldKeys, DistinctKeys, WorkConserved, RunningCount, AllPolled, AllAdmitted, StartedOrNot, SharesNoDevice;
      polled, withheld, failures := jobs, Withheld(), map[];
      ok := PollAll(now);
      if ok {
        polled, withheld := jobs, Withheld();
        ghost var polling := platform.trace;
        DevicesAreDistinct();
        ok, failures := StartAll(now);
        PolledLater(old(jobs), polled, now, polling[|old(platform.trace)|..], platform.trace[|old(platform.trace)|..]);
        if ok {
          TickConservesWork(polled, withheld, jobs, Withheld(), devices, maxRunning, failures, now);
          TickKeepsPending(old(jobs), polled, withheld, jobs, Withheld(), devices, maxRunning, failures, now);
          TickStartsOrNot(polled, withheld, jobs, Withheld(), devices, status, excluded, maxRunning, failures, now);
          RunningJobsAreApart();
        }
      }
    }

    /** No two running jobs have a device of the same vendor and visible name. */
    ghost predicate SharesNoDevice()
      reads this
    {
      forall i, j, k, l | 0 <= i < j < |jobs| && jobs[i].state == Running && jobs[j].state == Running
                          && 0 <= k < |jobs[i].devices| && 0 <= l < |jobs[j].devices| ::
        jobs[i].devices[k].kind != jobs[j].devices[l].kind || jobs[i].devices[k].visible != jobs[j].devices[l].visible
    }

    lemma RunningJobsAreApart()
      requires Valid() && !phase.Failing?
      ensures SharesNoDevice()
      ensures forall i | 0 <= i < |jobs| && jobs[i].state == Running :: jobs[i].result == None
    {
      OneHolder();
      RunningHaveNoResult();
      hide IsRun, After, Inv, Index, Ordered;
      forall i, j, k, l | 0 <= i < j < |jobs| && jobs[i].state == Running && jobs[j].state == Running
                          && 0 <= k < |jobs[i].devices| && 0 <= l < |jobs[j].devices|
        ensures jobs[i].devices[k].Key() != jobs[j].devices[l].Key()
      {
        assert jobs[i].devices[k].Key() in Keys(jobs[i].devices) && jobs[j].devices[l].Key() in Keys(jobs[j].devices);
      }
    }

    lemma RunningHaveNoResult()
      requires Valid() && !phase.Failing?
      ensures forall i | 0 <= i < |jobs| && jobs[i].state == Running :: jobs[i].result == None
    {
      hide IsRun, After, HistoryOk, PastOk, AcksOk, WorkersOk, FilesOk, Ahead, Covers, SpawnedIsKept, Agree;
      KnowInv();
      IndexIsExact(jobs);
      forall i | 0 <= i < |jobs| && jobs[i].state == Running ensures jobs[i].result == None {
        assert WellFormed(Index(jobs)[jobs[i].id]);
      }
    }

    lemma DevicesAreDistinct()
      requires Valid() && !phase.Failing?
      ensures DistinctKeys(devices)
    {
      PendingIsReady();
    }

    // ----- History clean-up -----

    /** Deletes the files of the jobs finished long ago, one directory entry at a time, and then forgets them. A
        failure on the way leaves the history as it was. */
    method Cleanup(now: nat) returns (ok: bool)
      requires Valid() && phase == Idle
      modifies this`jobs, this`phase, platform
      ensures Valid() && phase == Idle && old(platform.trace) <= platform.trace
      ensures jobs == if ok then Retained(old(jobs), ExpiredOf(old(jobs), now)) else old(jobs)
      ensures ok && ExpiredOf(old(jobs), now) != {} ==> platform.durable == Store(nextId, jobs)
      ensures platform.durable in {old(platform.durable), Store(nextId, Retained(old(jobs), ExpiredOf(old(jobs), now)))}
      ensures platform.durable != old(platform.durable) ==>
                forall f | f in platform.files :: f.id !in ExpiredOf(old(jobs), now)
      ensures ok ==> forall f | f in platform.files :: f.id !in ExpiredOf(old(jobs), now)
      ensures forall f | f in old(platform.files) && f.id !in ExpiredOf(old(jobs), now) :: f in platform.files
      ensures ok ==> Keeps(old(jobs), jobs, now)
      ensures platform.durable == old(platform.durable)
              || (platform.durable.nextId == nextId && Keeps(old(jobs), platform.durable.jobs, now))
      ensures forall f | f in old(platform.files) && f !in platform.files ::
                exists job :: job in old(jobs) && job.id == f.id && Outdated(job, now)
      ensures ok ==> forall f, job | f in platform.files && job in old(jobs) && job.id == f.id :: !Outdated(job, now)
      ensures old(platform.calls) <= platform.calls
      ensures !ok ==> platform.Failed(old(platform.calls))
      ensures forall limit | AllAdmitted(old(jobs), devices, limit) :: AllAdmitted(jobs, devices, limit)
    {
      hide IsRun, After, Apply, Enabled, Index, Ordered;
      hide ExpiredOf, Retained, Outdated;
      var expired := ExpiredOf(jobs, now);
      StoreIsOrdered();
      ExpiredIsOutdated(jobs, now);
      RetainedStaysAdmitted(jobs, expired, devices);
      if expired == {} {
        NothingRetained(jobs);
        return true;
      }
      ok := RemoveFiles(expired, now);
      if ok { ok := ForgetJobs(expired, now); }
    }

    lemma StoreIsOrdered()
      requires Valid()
      ensures Ordered(jobs)
    {
    }

    ghost method BeginRemoval(expired: set<nat>, now: nat) returns (todo: set<FileName>)
      requires Valid() && phase == Idle && expired == ExpiredOf(jobs, now) && expired != {}
      modifies this`phase, platform`world, platform`trace
      ensures Valid() && old(platform.trace) <= platform.trace
      ensures todo == Among(platform.files.Keys, expired) && phase == Cleaning(now, expired, todo)
    {
      hide IsRun, After, Apply, Enabled, Index, Ordered;
      ExpiredIndex(jobs, now);
      CleanupEffect(platform.world, now, expired);
      todo := FilesOf(platform.files, expired);
      assert todo == Among(platform.files.Keys, expired);
      phase := Cleaning(now, expired, todo);
      platform.Take(BeginCleanup(now));
    }

    /** The directory entries of these jobs. */
    static ghost function Among(entries: set<FileName>, expired: set<nat>): set<FileName> {
      set f | f in entries && f.id in expired
    }

    static lemma AmongWithout(entries: set<FileName>, expired: set<nat>, name: FileName)
      requires name in entries
      ensures Among(entries - {name}, expired)
              == if name.id in expired then Among(entries, expired) - {name} else Among(entries, expired)
      ensures name.id in expired ==> name in Among(entries, expired)
    {
    }

    static lemma NothingAmong(expired: set<nat>)
      ensures Among({}, expired) == {}
    {
    }

    method RemoveFiles(expired: set<nat>, now: nat) returns (ok: bool)
      requires Valid() && phase == Idle && expired == ExpiredOf(jobs, now) && expired != {}
      modifies this`phase, platform
      ensures Valid() && old(platform.trace) <= platform.trace
      ensures phase == if ok then Cleaning(now, expired, {}) else Idle
      ensures platform.durable == old(platform.durable)
      ensures forall f | f in old(platform.files) && f.id !in expired :: f in platform.files
      ensures old(platform.calls) <= platform.calls
      ensures !ok ==> platform.Failed(old(platform.calls))
    {
      hide IsRun, After, Apply, Enabled, Index, Ordered, Platform.Tracked, Platform.Mirrors, Among, FilesOf, ExpiredOf;
      var listing := platform.Call();
      if listing.Fails? { return false; }
      var entries := platform.files.Keys;
      ghost var todo := BeginRemoval(expired, now);
      while entries != {}
        invariant Valid() && phase == Cleaning(now, expired, todo)
        invariant todo == Among(entries, expired)
        invariant old(platform.trace) <= platform.trace && platform.durable == old(platform.durable)
        invariant old(platform.calls) <= platform.calls
        invariant forall f | f in old(platform.files) && f.id !in expired :: f in platform.files
        decreases entries
      {
        var name :| name in entries;
        var entry := platform.Call();
        if entry.Fails? {
          AbandonCleanup();
          return false;
        }
        AmongWithout(entries, expired, name);
        entries := entries - {name};
        if name.id in expired {
          ok := RemoveOne(name);
          if !ok { return; }
          todo := todo - {name};
        }
      }
      assert todo == {} by { NothingAmong(expired); }
      ok := true;
    }

    ghost method AbandonCleanup()
      requires Valid() && phase.Cleaning?
      modifies this`phase, platform`world, platform`trace
      ensures Valid() && phase == Idle && old(platform.trace) <= platform.trace
    {
      hide IsRun, After, Index, Ordered;
      phase := Idle;
      platform.Take(AbortCleanup);
    }

    method RemoveOne(name: FileName) returns (ok: bool)
      requires Valid() && phase.Cleaning? && name in phase.todo
      modifies this`phase, platform
      ensures Valid() && old(platform.trace) <= platform.trace
      ensures phase == if ok then old(phase).(todo := old(phase).todo - {name}) else Idle
      ensures platform.durable == old(platform.durable)
      ensures forall f | f in old(platform.files) && f != name :: f in platform.files
      ensures platform.calls == old(platform.calls) + 1 && ok == (platform.os(old(platform.calls)) == Works)
    {
      hide IsRun, After, Apply, Enabled, Index, Ordered, Platform.MakesNoOthers;
      WorkersRun();
      var fault := platform.Call();
      if fault.Works? { Unlink(name); } else { AbandonCleanup(); }
      return fault.Works?;
    }

    method Unlink(name: FileName)
      requires Valid() && phase.Cleaning? && name in phase.todo
      modifies this`phase, platform`files, platform`world, platform`trace
      ensures Valid() && old(platform.trace) <= platform.trace && platform.files == old(platform.files) - {name}
      ensures phase == old(phase).(todo := old(phase).todo - {name})
    {
      hide IsRun, After, Apply, Enabled, Index, Ordered;
      RemoveEffect(platform.world, name);
      platform.files := platform.files - {name};
      phase := phase.(todo := phase.todo - {name});
      platform.Take(RemoveFile(name));
    }

    method ForgetJobs(expired: set<nat>, now: nat) returns (ok: bool)
      requires Valid() && phase == Cleaning(now, expired, {})
      modifies this`jobs, this`phase, platform
      ensures Valid() && phase == Idle && old(platform.trace) <= platform.trace && platform.files == old(platform.files)
      ensures jobs == if ok then Retained(old(jobs), expired) else old(jobs)
      ensures ok ==> platform.durable == Store(nextId, jobs)
      ensures platform.durable in {old(platform.durable), Store(nextId, Retained(old(jobs), expired))}
      ensures forall f | f in platform.files :: f.id !in expired
      ensures platform.calls == old(platform.calls) + 1 && ok == (platform.os(old(platform.calls)) == Works)
    {
      hide IsRun, After, Apply, Enabled, Index, Ordered;
      var retained := Retained(jobs, expired);
      RetainedIsOrdered(jobs, expired);
      IndexRetained(jobs, expired);
      ExpiredFilesAreGone(expired, now);
      var save := platform.WriteState(Store(nextId, retained));
      EndCleanupEffect(platform.world, save);
      if save.Saved? { jobs := retained; }
      phase := Idle;
      platform.Take(EndCleanup(save));
      return save.Saved?;
    }

    lemma ExpiredFilesAreGone(expired: set<nat>, now: nat)
      requires Valid() && phase == Cleaning(now, expired, {})
      ensures forall f | f in platform.files :: f.id !in expired
    {
      hide IsRun, After, JobsOk, HistoryOk, PastOk, AcksOk, WorkersOk, FilesOk, Ahead, Covers, SpawnedIsKept, Agree;
      KnowInv();
    }

    // ----- Devices -----

    static predicate Holds(job: Job, key: Key, id: nat) {
      job.id == id && job.state == Running && key in Keys(job.devices)
    }

    /** Job id is running and holds the key. */
    static predicate RunningHolder(jobs: seq<Job>, key: Key, id: nat) {
      exists i | 0 <= i < |jobs| :: Holds(jobs[i], key, id)
    }

    /** The first running job holding the key, as info searches for it. */
    static function Holder(jobs: seq<Job>, key: Key): Option<nat> {
      if jobs == [] then None
      else if jobs[0].state == Running && key in Keys(jobs[0].devices) then Some(jobs[0].id)
      else Holder(jobs[1..], key)
    }

    function View(d: Device): DeviceView
      reads this
    {
      var job := Holder(jobs, d.Key());
      DeviceView(d, job,
                 if d.Key() in excluded then "disabled"
                 else if job.Some? then "allocated"
                 else if d.Key() in status then status[d.Key()] else "unknown")
    }

    /** A device is shown with job id exactly when that job is the running job that holds its key. */
    method Info() returns (views: seq<DeviceView>)
      requires Valid() && !phase.Failing?
      ensures |views| == |devices| && forall k | 0 <= k < |views| :: views[k] == View(devices[k])
      ensures forall k, id: nat | 0 <= k < |views| :: views[k].job == Some(id) <==>
                RunningHolder(jobs, views[k].device.Key(), id)
      ensures forall k | 0 <= k < |views| ::
                var d, key := devices[k], KeyOf(devices[k].kind, devices[k].visible);
                && views[k].device == d
                && views[k].status == (if key in excluded then "disabled"
                                       else if views[k].job.Some? then "allocated"
                                       else if key in status then status[key]
                                       else "unknown")
    {
      views := seq(|devices|, k requires 0 <= k < |devices| reads this => View(devices[k]));
      OneHolder();
      forall k, id: nat | 0 <= k < |views|
        ensures views[k].job == Some(id) <==> RunningHolder(jobs, views[k].device.Key(), id)
      {
        HolderMeaning(jobs, devices[k].Key(), id);
      }
    }

    lemma OneHolder()
      requires Valid() && !phase.Failing?
      ensures forall i, j | 0 <= i < j < |jobs| && jobs[i].state == Running && jobs[j].state == Running ::
                Keys(jobs[i].devices) !! Keys(jobs[j].devices)
    {
      hide IsRun, After, JobsOk, HistoryOk, PastOk, AcksOk, WorkersOk, FilesOk, Covers, SpawnedIsKept, Agree;
      KnowInv();
      IndexIsExact(jobs);
    }

    static lemma {:induction false} HolderMeaning(jobs: seq<Job>, key: Key, id: nat)
      requires Ordered(jobs)
      requires forall i, j | 0 <= i < j < |jobs| && jobs[i].state == Running && jobs[j].state == Running ::
                 Keys(jobs[i].devices) !! Keys(jobs[j].devices)
      ensures Holder(jobs, key) == Some(id) <==> RunningHolder(jobs, key, id)
    {
      if jobs != [] {
        HolderMeaning(jobs[1..], key, id);
        assert forall i | 0 < i < |jobs| :: jobs[1..][i - 1] == jobs[i];
        if RunningHolder(jobs[1..], key, id) {
          var i :| 0 <= i < |jobs[1..]| && Holds(jobs[1..][i], key, id);
          assert jobs[i + 1] == jobs[1..][i];
        }
      }
    }
  }
}
