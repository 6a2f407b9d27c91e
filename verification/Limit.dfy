/** The limit on running jobs is not a bound on the running jobs: a run in which a daemon with a lower limit adopts
    more jobs than it would start. */
module Limits {
  import opened Model
  import opened Cancellation
  import opened Effects
  import opened Invariants
  import opened Machine
  import opened Planner
  import opened Restarts
  import opened Schedules
  import opened Stores

  function Request(id: nat): Job {
    NewJob(id, 0, CPU_REQUEST, 0)
  }

  const WAITING: seq<Job> := [Request(1), Request(2)]
  const WORKING: seq<Job> := [Request(1).Start([], 0), Request(2).Start([], 0)]

  /** Two requests for no devices, and a tick. */
  const UNDER_TWO: seq<Step> :=
    FirstSteps([], CPU_REQUEST, Saved) + [Step.Submit(0, CPU_REQUEST, 0, Saved)] + NO_POLLS
    + ([Grant(1, 0)] + LAUNCH) + ([Grant(2, 0)] + LAUNCH) + [EndTick]

  const BUSY_POLLS: seq<Step> := [PollOpens(1), PollBusy(1), PollOpens(2), PollBusy(2)]

  const UNDER_ONE: seq<Step> := [Crash, Boot([], AllIdle([])), BeginTick] + BUSY_POLLS + [EndPolls(Saved), EndTick]

  // ----- What the ticks do -----

  lemma IndexOfTwo(a: Job, b: Job)
    ensures Index([a, b]) == map[a.id := a][b.id := b]
  {
    IndexPush([], a);
    IndexPush([a], b);
    assert [] + [a] == [a] && [a] + [b] == [a, b];
  }

  lemma CountOfTwo(a: Job, b: Job)
    ensures RunningCount([a, b]) == (if a.state == Running then 1 else 0) + if b.state == Running then 1 else 0
  {
    assert [a, b][1..] == [b] && [b][1..] == [];
    assert RunningCount([]) == 0;
    assert RunningCount([b]) == RunningCount([]) + if b.state == Running then 1 else 0;
  }

  /** Under the limit of two both jobs are started, on no devices. */
  lemma GreedyOfTwo(p: Plan)
    requires p == Plan(WAITING, {}, 0)
    ensures Greedy([0, 1], p, [], 2, map[], 0) == Plan(WORKING, {}, 2)
  {
    var one := Plan([Request(1).Start([], 0), Request(2)], {}, 1);
    assert Keys([]) == {} && {} + Keys([]) == {};
    assert StartOne(0, p, [], map[], 0) == one;
    assert StartOne(1, one, [], map[], 0) == Plan(WORKING, {}, 2);
    hide StartOne;
    assert [0, 1][1..] == [1] && [1][1..] == [];
    assert Greedy([1], one, [], 2, map[], 0) == Greedy([], Plan(WORKING, {}, 2), [], 2, map[], 0);
  }

  lemma WaitingAreStarted()
    ensures StartLoop(WAITING, {}, WORKING, {}, [], 2, map[], 0)
  {
    StartOrderIsExact(WAITING);
    OrderIsUnique(WAITING, StartOrder(WAITING), [0, 1]);
    CountOfTwo(WAITING[0], WAITING[1]);
    CountOfTwo(WORKING[0], WORKING[1]);
    OrderIsReady(WAITING, Plan(WAITING, {}, 0));
    hide StartOrder, RunningCount, Greedy, Ready;
    GreedyOfTwo(Plan(WAITING, {}, 0));
  }

  lemma WorkingAreLeft()
    ensures StartLoop(WORKING, {}, WORKING, {}, [], 1, map[], 0)
  {
    NothingToStart(WORKING, {}, [], 1, map[], 0);
  }

  // ----- The run -----

  lemma TwoAreSubmitted(cap: nat) returns (a: At)
    ensures Leads(BEFORE, FirstSteps([], CPU_REQUEST, Saved) + [Step.Submit(0, CPU_REQUEST, 0, Saved)], a, cap)
    ensures a == At(a.w, true, 0, false)
    ensures a.w.holder == Serving(Daemon(LedgerOf(Store(2, WAITING)), [], AllIdle([]), {}, Idle, {}))
    ensures a.w.durable == LedgerOf(Store(2, WAITING)) && a.w.workers == map[]
  {
    hide Leads, Enabled, Apply, Inv, FirstSteps;
    var first := FirstJobIsSubmitted([], CPU_REQUEST, Saved, cap);
    SubmitApplies(first.w, 0, CPU_REQUEST, 0, Saved);
    LeadsNext(BEFORE, FirstSteps([], CPU_REQUEST, Saved), first, Step.Submit(0, CPU_REQUEST, 0, Saved), cap);
    a := Move(first, Step.Submit(0, CPU_REQUEST, 0, Saved));
    IndexOfTwo(WAITING[0], WAITING[1]);
  }

  lemma TwoAreStarted() returns (a: At)
    ensures Leads(BEFORE, UNDER_TWO, a, 2) && AtPhase(a.w, Idle)
    ensures a.w.holder.d.ledger == a.w.durable == LedgerOf(Store(2, WORKING)) && a.w.workers.Keys == {1, 2}
  {
    hide Leads, Enabled, Apply, Index, FirstSteps;
    var submit := FirstSteps([], CPU_REQUEST, Saved) + [Step.Submit(0, CPU_REQUEST, 0, Saved)];
    var submitted := TwoAreSubmitted(2);
    IndexOfTwo(WAITING[0], WAITING[1]);
    NoPolls(submitted, 2);
    var granting := At(InPhase(submitted.w, Granting), true, 0, false);
    LeadsFurther(BEFORE, submit, submitted, NO_POLLS, granting, 2);
    a := GrantingStartsTwo(granting);
    LeadsFurther(BEFORE, submit + NO_POLLS, granting, ([Grant(1, 0)] + LAUNCH) + ([Grant(2, 0)] + LAUNCH) + [EndTick],
                 a, 2);
    assert submit + NO_POLLS + (([Grant(1, 0)] + LAUNCH) + ([Grant(2, 0)] + LAUNCH) + [EndTick]) == UNDER_TWO;
  }

  lemma CpuJobStarts(a: At, id: nat) returns (b: At)
    requires AtPhase(a.w, Granting) && id in PendingIds(a.w.holder.d.ledger.jobs) && id !in a.w.workers
    requires |RunningIds(a.w.holder.d.ledger.jobs)| < 2
    requires forall other | other in PendingIds(a.w.holder.d.ledger.jobs) ::
               id <= other && a.w.holder.d.ledger.jobs[other].spec == CPU_REQUEST
    ensures Path(a, [Grant(id, 0)] + LAUNCH, b, 2) && AtPhase(b.w, Granting)
    ensures b.w.holder.d.ledger == b.w.durable && b.w.holder.d.devices == a.w.holder.d.devices
    ensures b.w.durable == a.w.holder.d.ledger.(
              jobs := a.w.holder.d.ledger.jobs[id := a.w.holder.d.ledger.jobs[id].Start([], 0)])
    ensures b.w.workers.Keys == a.w.workers.Keys + {id}
  {
    hide Path, Reserved;
    b := GrantingStarts(a, id, 2);
  }

  /** The ledgers before, between and after the two starts. */
  lemma TwoLedgers()
    ensures var before, after := LedgerOf(Store(2, WAITING)), LedgerOf(Store(2, WORKING));
            var between := before.(jobs := before.jobs[1 := WORKING[0]]);
            && RunningIds(before.jobs) == {} && PendingIds(before.jobs) == {1, 2}
            && before.jobs[1] == WAITING[0] && before.jobs[2] == WAITING[1]
            && RunningIds(between.jobs) == {1} && PendingIds(between.jobs) == {2}
            && after == between.(jobs := between.jobs[2 := WORKING[1]])
  {
    IndexOfTwo(WAITING[0], WAITING[1]);
    IndexOfTwo(WORKING[0], WORKING[1]);
  }

  lemma GrantingStartsTwo(a: At) returns (b: At)
    requires AtPhase(a.w, Granting) && a.w.holder.d.ledger == LedgerOf(Store(2, WAITING)) && a.w.workers == map[]
    ensures Path(a, ([Grant(1, 0)] + LAUNCH) + ([Grant(2, 0)] + LAUNCH) + [EndTick], b, 2) && AtPhase(b.w, Idle)
    ensures b.w.holder.d.ledger == b.w.durable == LedgerOf(Store(2, WORKING)) && b.w.workers.Keys == {1, 2}
  {
    hide Path, Enabled, Apply, LedgerOf;
    TwoLedgers();
    var one := CpuJobStarts(a, 1);
    var two := CpuJobStarts(one, 2);
    PathFurther(a, [Grant(1, 0)] + LAUNCH, one, [Grant(2, 0)] + LAUNCH, two, 2);
    b := WorkingTickEnds(two);
    PathFurther(a, ([Grant(1, 0)] + LAUNCH) + ([Grant(2, 0)] + LAUNCH), two, [EndTick], b, 2);
  }

  lemma WorkingTickEnds(a: At) returns (b: At)
    requires AtPhase(a.w, Granting) && a.w.holder.d.ledger == LedgerOf(Store(2, WORKING))
    ensures Path(a, [EndTick], b, 2) && b.w == InPhase(a.w, Idle)
  {
    hide Path, Index;
    IndexOfTwo(WORKING[0], WORKING[1]);
    EndsTick(a, 2);
    b := At(InPhase(a.w, Idle), true, 0, false);
  }

  lemma TwoAreAdopted(a: At) returns (b: At)
    requires AtPhase(a.w, Idle) && a.w.durable == LedgerOf(Store(2, WORKING)) && a.w.workers.Keys == {1, 2}
    ensures Path(a, UNDER_ONE, b, 1) && AtPhase(b.w, Idle)
    ensures b.w.holder.d.ledger == b.w.durable == LedgerOf(Store(2, WORKING)) && b.w.workers == a.w.workers
  {
    hide Path, Enabled, Apply, Index;
    IndexOfTwo(WORKING[0], WORKING[1]);
    var free := a.(w := a.w.(holder := Nobody));
    Stops(a, 1);
    BootsToPolling(free, [], 1);
    var d := Daemon(a.w.durable, [], AllIdle([]), {}, Polling(false), {});
    var polling := At(WithDaemon(free.w, d), false, 0, false);
    PathFurther(a, [Crash], free, [Boot([], AllIdle([])), BeginTick], polling, 1);
    b := AdoptedTickEnds(polling);
    PathFurther(a, [Crash] + [Boot([], AllIdle([])), BeginTick], polling, BUSY_POLLS + [EndPolls(Saved), EndTick], b,
                1);
    assert [Crash] + [Boot([], AllIdle([])), BeginTick] + (BUSY_POLLS + [EndPolls(Saved), EndTick]) == UNDER_ONE;
  }

  lemma FindsBusy(a: At, id: nat) returns (b: At)
    requires a.w.holder.Serving? && a.w.holder.d.phase.Polling? && !a.atLock && IsNextPoll(a, id) && id in a.w.workers
    ensures Path(a, [PollOpens(id), PollBusy(id)], b, 1)
    ensures b == At(a.w.(files := b.w.files), a.ticked, id + 1, false)
  {
    hide Path, Enabled, Apply;
    PollMissEffect(a.w, id);
    PathFirst(a, PollOpens(id), 1);
    var m := Move(a, PollOpens(id));
    PollMissEffect(m.w, id);
    PathNext(a, [PollOpens(id)], m, PollBusy(id), 1);
    assert [PollOpens(id)] + [PollBusy(id)] == [PollOpens(id), PollBusy(id)];
    b := Move(m, PollBusy(id));
  }

  lemma AdoptedTickEnds(a: At) returns (b: At)
    requires AtPhase(a.w, Polling(false)) && a.next == 0 && !a.atLock && 1 in a.w.workers && 2 in a.w.workers
    requires RunningIds(a.w.holder.d.ledger.jobs) == {1, 2} && PendingIds(a.w.holder.d.ledger.jobs) == {}
    ensures Path(a, BUSY_POLLS + [EndPolls(Saved), EndTick], b, 1)
    ensures b.w == InPhase(a.w, Idle).(files := b.w.files)
  {
    hide Path, Enabled, Apply;
    var one := FindsBusy(a, 1);
    var two := FindsBusy(one, 2);
    PathFurther(a, [PollOpens(1), PollBusy(1)], one, [PollOpens(2), PollBusy(2)], two, 1);
    assert [PollOpens(1), PollBusy(1)] + [PollOpens(2), PollBusy(2)] == BUSY_POLLS;
    PhaseEffect(two.w, EndPolls(Saved), Granting);
    PathNext(a, BUSY_POLLS, two, EndPolls(Saved), 1);
    var granting := Move(two, EndPolls(Saved));
    EndsTick(granting, 1);
    b := At(InPhase(granting.w, Idle), true, 0, false);
    PathFurther(a, BUSY_POLLS + [EndPolls(Saved)], granting, [EndTick], b, 1);
    assert BUSY_POLLS + [EndPolls(Saved)] + [EndTick] == BUSY_POLLS + [EndPolls(Saved), EndTick];
  }

  /** A daemon with limit two starts two jobs and crashes; one with limit one adopts both, and its tick, which finds
      both workers busy, leaves two jobs running. The two start loops are those of the program under these limits. */
  lemma LoweredLimitIsExceeded() returns (a: At, b: At)
    ensures Leads(BEFORE, UNDER_TWO, a, 2) && a.w.holder.Serving? && a.w.holder.d.ledger == LedgerOf(Store(2, WORKING))
    ensures StartLoop(WAITING, {}, WORKING, {}, [], 2, map[], 0)
    ensures Leads(a, UNDER_ONE, b, 1) && b.w.holder.Serving? && b.w.holder.d.ledger == LedgerOf(Store(2, WORKING))
    ensures StartLoop(WORKING, {}, WORKING, {}, [], 1, map[], 0)
    ensures RunningCount(WORKING) == 2 > 1 && b.w.workers.Keys == {1, 2}
  {
    hide Leads, StartLoop;
    CountOfTwo(WORKING[0], WORKING[1]);
    WaitingAreStarted();
    WorkingAreLeft();
    a := TwoAreStarted();
    b := TwoAreAdopted(a);
  }
}
