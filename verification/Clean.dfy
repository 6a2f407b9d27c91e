/** The offline clean (src/cli.rs:284-346): with the daemon lock in hand and no running job in the state file, it
    deletes the job logs. */
module OfflineClean {
  import opened Model
  import opened Effects
  import opened Machine
  import opened Invariants
  import opened Preservation
  import opened Guarantees
  import opened Stores
  import opened Platforms

  datatype CleanResult = Removed(jobLogs: nat, daemonLog: bool) | DaemonRunning | JobsRunning | CleanFailed

  function Logs(files: Files): set<FileName> {
    set f | f in files && f.ext == LogFile
  }

  lemma NoWorkerIsLive(platform: Platform)
    requires platform.Tracked() && platform.world.holder == Cleaner(true)
    ensures platform.world.workers == map[]
  {
    hide Inv, Enabled, Apply;
    InvInitially();
    RunKeeps(INITIAL, platform.trace);
    CleanerIsAlone(platform.world);
  }

  method Lock(platform: Platform)
    requires platform.Tracked() && platform.Mirrors() && !platform.locked
    modifies platform`locked, platform`world, platform`trace
    ensures platform.Tracked() && platform.Mirrors() && old(platform.trace) <= platform.trace
    ensures platform.locked && platform.world.holder == Cleaner(false)
  {
    hide IsRun, After, Enabled, Apply, Index;
    EnterEffect(platform.world);
    platform.locked := true;
    platform.Take(CleanerEnters);
  }

  method Leave(platform: Platform)
    requires platform.Tracked() && platform.Mirrors() && platform.world.holder.Cleaner?
    modifies platform`locked, platform`world, platform`trace
    ensures platform.Tracked() && platform.Mirrors() && old(platform.trace) <= platform.trace && !platform.locked
  {
    hide IsRun, After, Enabled, Apply, Index;
    StopEffect(platform.world, CleanerLeaves);
    platform.locked := false;
    platform.Take(CleanerLeaves);
  }

  /** A running job in the store makes the cleaner let go of the lock; otherwise no worker is live. */
  method Check(platform: Platform) returns (running: bool)
    requires platform.Tracked() && platform.Mirrors() && platform.world.holder == Cleaner(false)
    modifies platform`locked, platform`world, platform`trace
    ensures platform.Tracked() && platform.Mirrors() && old(platform.trace) <= platform.trace
    ensures running <==> exists i | 0 <= i < |platform.durable.jobs| :: platform.durable.jobs[i].state == Running
    ensures if running then !platform.locked else platform.world.holder == Cleaner(true) && platform.workers == map[]
  {
    hide IsRun, After, Enabled, Apply, Index;
    NoneRunningInIndex(platform.durable.jobs);
    CheckEffect(platform.world);
    running := exists i | 0 <= i < |platform.durable.jobs| :: platform.durable.jobs[i].state == Running;
    platform.locked := !running;
    platform.Take(CleanerChecks);
    if !running { NoWorkerIsLive(platform); }
  }

  /** Takes the lock and reads the store. A running job sends the caller away; otherwise no worker is live. */
  method Enter(platform: Platform) returns (r: Option<CleanResult>)
    requires platform.Tracked() && platform.Mirrors()
    modifies platform`locked, platform`calls, platform`world, platform`trace
    ensures platform.Tracked() && platform.Mirrors() && old(platform.trace) <= platform.trace
    ensures old(platform.calls) <= platform.calls && (r == Some(CleanFailed) ==> platform.Failed(old(platform.calls)))
    ensures r == Some(DaemonRunning) ==> old(platform.locked)
    ensures r == Some(JobsRunning) ==>
              && !old(platform.locked)
              && exists i | 0 <= i < |platform.durable.jobs| :: platform.durable.jobs[i].state == Running
    ensures r.Some? ==> platform.locked == old(platform.locked) && r.value in {DaemonRunning, JobsRunning, CleanFailed}
    ensures r.None? ==> !old(platform.locked) && platform.world.holder == Cleaner(true) && platform.workers == map[]
  {
    hide IsRun, After, Enabled, Apply, Index, Platform.Tracked, Platform.Mirrors;
    var prepare := platform.Call();
    if prepare.Fails? { return Some(CleanFailed); }
    var lock := platform.Call();
    if lock.Fails? { return Some(CleanFailed); }
    if platform.locked { return Some(DaemonRunning); }
    Lock(platform);
    var store := platform.Call();
    if store.Fails? {
      Leave(platform);
      return Some(CleanFailed);
    }
    var running := Check(platform);
    return if running then Some(JobsRunning) else None;
  }

  method RemoveLog(platform: Platform, name: FileName)
    requires platform.Tracked() && platform.Mirrors() && platform.world.holder == Cleaner(true) && name.ext == LogFile
    modifies platform`files, platform`world, platform`trace
    ensures platform.Tracked() && platform.Mirrors() && old(platform.trace) <= platform.trace
    ensures platform.world.holder == Cleaner(true) && platform.files == old(platform.files) - {name}
  {
    hide IsRun, After, Enabled, Apply, Index;
    RemoveLogEffect(platform.world, name);
    platform.files := platform.files - {name};
    platform.Take(CleanerRemovesLog(name.id));
  }

  /** Only logs are missing. */
  ghost predicate OnlyLogsGone(before: Files, after: Files) {
    after == before - (Logs(before) - after.Keys)
  }

  /** The logs among the entries already visited are gone. */
  ghost predicate Swept(before: Files, entries: set<FileName>, after: Files, count: nat) {
    after == before - (Logs(before) - entries) && count == |Logs(before) - entries|
  }

  lemma SweepStarts(before: Files)
    ensures Swept(before, before.Keys, before, 0)
  {
    assert Logs(before) - before.Keys == {};
  }

  lemma SweepAdvances(before: Files, entries: set<FileName>, after: Files, count: nat, name: FileName)
    requires Swept(before, entries, after, count) && name in entries && entries <= before.Keys
    ensures if name.ext == LogFile then Swept(before, entries - {name}, after - {name}, count + 1)
            else Swept(before, entries - {name}, after, count)
  {
    if name.ext == LogFile {
      assert Logs(before) - (entries - {name}) == (Logs(before) - entries) + {name};
    } else {
      assert Logs(before) - (entries - {name}) == Logs(before) - entries;
    }
  }

  lemma SweepSoFar(before: Files, entries: set<FileName>, after: Files, count: nat)
    requires Swept(before, entries, after, count)
    ensures OnlyLogsGone(before, after)
    ensures entries == {} ==> after == before - Logs(before) && count == |Logs(before)|
  {
    assert Logs(before) - {} == Logs(before);
  }

  method RemoveLogs(platform: Platform) returns (r: Option<nat>)
    requires platform.Tracked() && platform.Mirrors() && platform.world.holder == Cleaner(true)
    modifies platform`files, platform`calls, platform`world, platform`trace
    ensures platform.Tracked() && platform.Mirrors() && old(platform.trace) <= platform.trace
    ensures old(platform.calls) <= platform.calls && (r.None? ==> platform.Failed(old(platform.calls)))
    ensures platform.world.holder == Cleaner(true) && OnlyLogsGone(old(platform.files), platform.files)
    ensures r.Some? ==>
              && platform.files == old(platform.files) - Logs(old(platform.files))
              && r.value == |Logs(old(platform.files))|
  {
    hide IsRun, After, Enabled, Apply, Platform.Tracked, Platform.Mirrors, Swept, OnlyLogsGone, Logs;
    ghost var files := platform.files;
    var listing := platform.Call();
    SweepStarts(files);
    if listing.Fails? {
      SweepSoFar(files, files.Keys, files, 0);
      return None;
    }
    var entries := platform.files.Keys;
    var count: nat := 0;
    while entries != {}
      invariant platform.Tracked() && platform.Mirrors() && old(platform.trace) <= platform.trace
      invariant platform.world.holder == Cleaner(true) && entries <= files.Keys && old(platform.calls) <= platform.calls
      invariant Swept(files, entries, platform.files, count)
      decreases entries
    {
      var name :| name in entries;
      SweepAdvances(files, entries, platform.files, count, name);
      SweepSoFar(files, entries, platform.files, count);
      var entry := platform.Call();
      if entry.Fails? { return None; }
      if name.ext == LogFile {
        var fault := platform.Call();
        if fault.Fails? { return None; }
        RemoveLog(platform, name);
        count := count + 1;
      }
      entries := entries - {name};
    }
    SweepSoFar(files, entries, platform.files, count);
    return Some(count);
  }

  /** daemon.log, which may be absent already. */
  method RemoveDaemonLog(platform: Platform) returns (r: Option<bool>)
    requires platform.Tracked() && platform.Mirrors()
    modifies platform`daemonLog, platform`calls
    ensures platform.Tracked() && platform.Mirrors() && platform.calls == old(platform.calls) + 1
    ensures r.None? <==> platform.os(old(platform.calls)).Fails?
    ensures if r.Some? then r.value == old(platform.daemonLog) && !platform.daemonLog
            else platform.daemonLog == old(platform.daemonLog)
  {
    var fault := platform.Call();
    if fault.Fails? { return None; }
    r := Some(platform.daemonLog);
    platform.daemonLog := false;
  }

  /** A refusal changes no file. A success leaves no job log and no daemon.log, and every other file, the store and the
      recorded results as they were; it can only happen while no worker is live. An error on the way leaves a part of
      the logs and everything else. The lock is given back in every case. */
  method Clean(platform: Platform) returns (r: CleanResult)
    requires platform.Tracked() && platform.Mirrors()
    modifies platform`locked, platform`files, platform`daemonLog, platform`calls, platform`world, platform`trace
    ensures platform.Tracked() && platform.Mirrors() && old(platform.trace) <= platform.trace
    ensures r == CleanFailed ==> platform.Failed(old(platform.calls))
    ensures platform.locked == old(platform.locked) && (platform.locked ==> r in {DaemonRunning, CleanFailed})
    ensures r in {DaemonRunning, JobsRunning} ==>
              platform.files == old(platform.files) && platform.daemonLog == old(platform.daemonLog)
    ensures r == DaemonRunning ==> platform.locked
    ensures r == JobsRunning ==>
              exists i | 0 <= i < |platform.durable.jobs| :: platform.durable.jobs[i].state == Running
    ensures OnlyLogsGone(old(platform.files), platform.files)
    ensures platform.files != old(platform.files) ==> platform.workers == map[]
    ensures platform.daemonLog != old(platform.daemonLog) ==>
              platform.workers == map[] && platform.files == old(platform.files) - Logs(old(platform.files))
    ensures r.Removed? ==>
              && platform.workers == map[] && platform.files == old(platform.files) - Logs(old(platform.files))
              && r.jobLogs == |Logs(old(platform.files))|
              && r.daemonLog == old(platform.daemonLog) && !platform.daemonLog
  {
    hide IsRun, After, Enabled, Apply, Index, Platform.Tracked, Platform.Mirrors;
    assert OnlyLogsGone(platform.files, platform.files);
    var refusal := Enter(platform);
    if refusal.Some? { return refusal.value; }
    var count := RemoveLogs(platform);
    var daemonLog: Option<bool> := None;
    if count.Some? { daemonLog := RemoveDaemonLog(platform); }
    Leave(platform);
    return if count.Some? && daemonLog.Some? then Removed(count.value, daemonLog.value) else CleanFailed;
  }
}
