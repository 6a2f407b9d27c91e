/** What the scheduler process acts on: the state directory and the worker processes (src/storage.rs and the
    process side of src/executor.rs). Every call may fail wherever the operating system may fail it, and workers
    run between any two calls. The ghost trace records the machine steps taken; it is the run of the machine
    that the program performs. */
module Platforms {
  import opened Model
  import opened Effects
  import opened Machine
  import opened Stores

  /** What the operating system does with a call: it works, or fails at one of its points. */
  datatype Fault = Works | Fails(at: nat, message: string)

  /** write_json creates (0), writes (1), syncs (2) and renames (3) a temporary file and syncs the directory (4). */
  function SaveOf(fault: Fault): Save {
    if fault.Works? then Saved else if fault.at < 4 then Lost else Landed
  }

  /** What write_json leaves of a job file. */
  function LeftOf(fault: Fault, ext: Ext): Option<Ext> {
    if fault.Works? || fault.at >= 4 then Some(ext) else if fault.at == 0 then None else Some(TempFile)
  }

  datatype PollResult = Busy | Ended(outcome: Outcome) | PollError

  /** write_json has got as far as the rename. */
  predicate Renames(fault: Fault) {
    fault == Works || (fault.Fails? && fault.at >= 4)
  }

  /** What the files say of a worker that is gone: the result it wrote, or that it left none. */
  ghost predicate Tells(files: Files, id: nat, now: nat, outcome: Outcome) {
    outcome == if FileName(id, ResultFile) in files && files[FileName(id, ResultFile)].Report?
               then files[FileName(id, ResultFile)].outcome
               else Outcome(Failed, 1, now, Some("executor worker disappeared without an exit result"))
  }

  class Platform {
    /** The fate of every call to the operating system, in the order of the calls. */
    const os: nat -> Fault
    var calls: nat
    var durable: Store
    var files: Files
    var workers: map<nat, Worker>
    /** Worker processes that have given up their locks and not yet exited. */
    var exiting: map<nat, Ending>
    /** What dead workers have left behind of their commands. */
    var orphans: map<nat, seq<Device>>
    /** daemon.log is there. */
    var daemonLog: bool
    /** daemon.lock is held. */
    var locked: bool
    ghost var world: World
    ghost var trace: seq<Step>

    /** The world is where the recorded run leads. */
    ghost predicate Tracked()
      reads this
    {
      IsRun(INITIAL, trace) && After(INITIAL, trace) == world
    }

    /** The world is the abstraction of the real state. */
    ghost predicate Mirrors()
      reads this
    {
      && Ordered(durable.jobs)
      && world.durable == LedgerOf(durable)
      && world.files == files
      && world.workers == workers && world.exiting == exiting && world.orphans == orphans
      && locked == !world.holder.Nobody?
    }

    /** A call from the given one on has failed. */
    ghost predicate Failed(from: nat)
      reads this
    {
      exists n | from <= n < calls :: os(n).Fails?
    }

    /** It has failed with this message. */
    ghost predicate FailedWith(from: nat, message: string)
      reads this
    {
      exists n | from <= n < calls :: os(n).Fails? && os(n).message == message
    }

    constructor (os: nat -> Fault)
      ensures Tracked() && Mirrors() && world == INITIAL && trace == []
      ensures this.os == os && calls == 0
    {
      this.os := os;
      calls := 0;
      durable := Store(0, []);
      files := map[];
      workers := map[];
      exiting := map[];
      orphans := map[];
      daemonLog := false;
      locked := false;
      world := INITIAL;
      trace := [];
    }

    ghost method Take(step: Step)
      requires Tracked() && Enabled(world, step)
      modifies this`world, this`trace
      ensures Tracked() && world == Apply(old(world), step) && trace == old(trace) + [step]
    {
      hide Enabled, Apply;
      RunStep(INITIAL, trace, step);
      world := Apply(world, step);
      trace := trace + [step];
    }

    /** What the workers never do: they touch neither the store nor the lock of the daemon, start no worker, bring no
        lock back and delete no file. */
    twostate predicate OnlyWorkers()
      reads this
    {
      && old(trace) <= trace
      && world.holder == old(world.holder) && world.durable == old(world.durable) && world.spawns == old(world.spawns)
      && old(files).Keys <= files.Keys && workers.Keys <= old(workers).Keys
    }

    /** Nor do they make a job file, a log or a cancel file. */
    twostate predicate MakesNoOthers()
      reads this
    {
      forall f | f in files && f !in old(files) :: f.ext in {ResultFile, TempFile}
    }

    /** Any number of workers make any number of steps. */
    method WorkersRun()
      requires Tracked() && Mirrors()
      modifies this`files, this`workers, this`exiting, this`orphans, this`world, this`trace
      ensures Tracked() && Mirrors() && OnlyWorkers() && MakesNoOthers()
    {
      var rounds: nat := *;
      while rounds > 0
        invariant Tracked() && Mirrors() && OnlyWorkers() && MakesNoOthers()
      {
        WorkerStep();
        rounds := rounds - 1;
      }
    }

    method WorkerStep()
      requires Tracked() && Mirrors()
      modifies this`files, this`workers, this`exiting, this`orphans, this`world, this`trace
      ensures Tracked() && Mirrors() && OnlyWorkers() && MakesNoOthers()
    {
      hide IsRun, After, Enabled, Apply;
      var id: nat := *;
      var ends: bool := *;
      if id in exiting {
        ExitingStep(id, ends);
      } else if id in orphans {
        OrphansStep(id, ends);
      } else if id in workers && ends {
        var temp: bool, ending: Ending := *, *;
        ReleaseEffect(world, id, temp, ending);
        if temp { files := files[FileName(id, TempFile) := Marker]; }
        workers := workers - {id};
        exiting := exiting[id := ending];
        Take(WorkerReleases(id, temp, ending));
      } else if id in workers && !workers[id].reported {
        WorkerGoesOn(id);
      }
    }

    /** It writes, or it is killed and leaves processes of its command behind. */
    method WorkerGoesOn(id: nat)
      requires Tracked() && Mirrors() && id in workers && !workers[id].reported
      modifies this`files, this`workers, this`orphans, this`world, this`trace
      ensures Tracked() && Mirrors() && OnlyWorkers() && MakesNoOthers()
    {
      hide IsRun, After, Enabled, Apply;
      var dies: bool := *;
      if dies {
        DieEffect(world, id);
        orphans := orphans[id := workers[id].devices];
        workers := workers - {id};
        Take(WorkerDies(id));
      } else {
        WorkerWrites(id);
      }
    }

    /** What a dead worker has left behind writes to the log or ends. */
    method OrphansStep(id: nat, ends: bool)
      requires Tracked() && Mirrors() && id in orphans
      modifies this`files, this`orphans, this`world, this`trace
      ensures Tracked() && Mirrors() && OnlyWorkers() && MakesNoOthers()
    {
      hide IsRun, After, Enabled, Apply;
      if ends {
        OrphansEndEffect(world, id);
        orphans := orphans - {id};
        Take(OrphansEnd(id));
      } else {
        var bytes: seq<Byte> := *;
        OrphansLogEffect(world, id, bytes);
        files := AppendLog(files, id, bytes);
        Take(OrphansLog(id, bytes));
      }
    }

    /** A worker process that has given up its lock prints a part of its error or exits. */
    method ExitingStep(id: nat, ends: bool)
      requires Tracked() && Mirrors() && id in exiting
      modifies this`files, this`exiting, this`world, this`trace
      ensures Tracked() && Mirrors() && OnlyWorkers() && MakesNoOthers() && (ends ==> id !in exiting)
    {
      hide IsRun, After, Enabled, Apply;
      if ends {
        ExitEffect(world, id);
        exiting := exiting - {id};
        Take(WorkerExits(id));
      } else if exiting[id].WithError? {
        var bytes: seq<Byte> := *;
        ComplainEffect(world, id, bytes);
        files := AppendLog(files, id, bytes);
        Take(WorkerComplains(id, bytes));
      }
    }

    method WorkerWrites(id: nat)
      requires Tracked() && Mirrors() && id in workers && !workers[id].reported
      modifies this`files, this`workers, this`world, this`trace
      ensures Tracked() && Mirrors() && OnlyWorkers() && MakesNoOthers()
    {
      hide IsRun, After, Enabled, Apply;
      var reports: bool, outcome: Outcome := *, *;
      if reports && outcome.state.Terminal() {
        ReportEffect(world, id, outcome);
        files := files[FileName(id, ResultFile) := Report(outcome)];
        workers := workers[id := workers[id].(reported := true)];
        Take(WorkerReports(id, outcome));
      } else {
        var bytes: seq<Byte> := *;
        LogEffect(world, id, bytes);
        files := AppendLog(files, id, bytes);
        Take(WorkerLogs(id, bytes));
      }
    }

    method Call() returns (fault: Fault)
      modifies this`calls
      ensures calls == old(calls) + 1 && fault == os(old(calls))
      ensures (Tracked() <==> old(Tracked())) && (Mirrors() <==> old(Mirrors()))
    {
      fault := os(calls);
      calls := calls + 1;
    }

    /** src/storage.rs write_json on state.json. Only the rename changes what a later reader sees. */
    method WriteState(store: Store) returns (save: Save)
      modifies this`durable, this`calls
      ensures calls == old(calls) + 1 && save == SaveOf(os(old(calls)))
      ensures save == Saved <==> os(old(calls)) == Works
      ensures durable == if Renames(os(old(calls))) then store else old(durable)
      ensures save == Lost <==> !Renames(os(old(calls)))
    {
      var fault := Call();
      if fault.Fails? && fault.at < 4 { return Lost; }
      durable := store;
      save := if fault.Works? then Saved else Landed;
    }

    /** Child::wait: the process exits sooner or later, and the other workers run on meanwhile. */
    method Wait(id: nat)
      requires Tracked() && Mirrors()
      modifies this`files, this`workers, this`exiting, this`orphans, this`world, this`trace
      ensures Tracked() && Mirrors() && OnlyWorkers() && id !in exiting
    {
      WorkersRun();
      if id in exiting { ExitingStep(id, true); }
    }

    /** ProcessExecutor::poll. It can fail before the lock file is there (0), at the lock (1), or, once the lock is
        held, while waiting for a child of this daemon or reading the result. The lock is free exactly when the
        worker has given it up; a worker that another daemon spawned is not waited for. A missing result means the
        worker left none. */
    method Poll(id: nat, now: nat, child: bool) returns (r: PollResult)
      requires Tracked() && Mirrors() && CanPoll(world, id) && child == (id in world.holder.d.children)
      modifies this`files, this`workers, this`exiting, this`orphans, this`calls, this`world, this`trace
      ensures Tracked() && Mirrors() && OnlyWorkers() && calls == old(calls) + 1
      ensures var fault := os(old(calls));
              && (r.PollError? <==> fault.Fails? && (fault.at <= 1 || id !in old(workers)))
              && (r.Busy? ==> id in old(workers) && workers == old(workers))
              && (r.Ended? ==> IsGone(world, id) && r.outcome == PolledOutcome(files, id, now))
              && (r.Ended? ==> Tells(files, id, now, r.outcome))
    {
      hide IsRun, After, Enabled, Apply, Tracked;
      var fault := Call();
      if fault.Fails? && fault.at == 0 { return PollError; }
      OpenLock(id);
      if fault.Fails? && fault.at == 1 { return PollError; }
      if id in workers { return Busy; }
      if child { Wait(id); }
      if fault.Fails? { return PollError; }
      var result := FileName(id, ResultFile);
      return Ended(if result in files && files[result].Report? then files[result].outcome
                   else Failure(DISAPPEARED, now));
    }

    /** Opening the lock file creates it. */
    method OpenLock(id: nat)
      requires Tracked() && Mirrors() && CanPoll(world, id)
      modifies this`files, this`world, this`trace
      ensures Tracked() && Mirrors() && OnlyWorkers() && CanPoll(world, id)
    {
      hide IsRun, After, Enabled, Apply;
      PollMissEffect(world, id);
      files := Touch(files, FileName(id, LockFile), Marker);
      Take(PollOpens(id));
    }
  }
}
