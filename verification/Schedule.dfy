/** The runs that the program makes. The machine leaves open in which order a tick polls and starts jobs and how many it
    starts, and what is admitted; `Follows` adds the choices of src/scheduler.rs:136-318 and the first tick of
    src/daemon.rs:86. */
module Schedules {
  import opened Model
  import opened Allocator
  import opened Machine
  import opened Planner
  import opened Stores

  /** A world, and where the daemon stands in it apart from its phase: whether its first tick is over, up to which ID
      it has polled the running jobs, and whether it has opened the lock file of the next. */
  datatype At = At(w: World, ticked: bool, next: nat, atLock: bool)

  /** Before the first daemon. */
  const BEFORE := At(INITIAL, false, 0, false)

  // ----- The choices of the program -----

  function RunningIds(jobs: map<nat, Job>): set<nat> {
    set id | id in jobs && jobs[id].state == Running
  }

  function PendingIds(jobs: map<nat, Job>): set<nat> {
    set id | id in jobs && jobs[id].state == Pending
  }

  /** The running jobs are polled in the order of their IDs. */
  predicate IsNextPoll(a: At, id: nat)
    requires a.w.holder.Serving?
  {
    && a.next <= id && id in RunningIds(a.w.holder.d.ledger.jobs)
    && forall other | other in RunningIds(a.w.holder.d.ledger.jobs) && a.next <= other :: id <= other
  }

  /** More requested devices first, then the smaller ID. */
  predicate GoesBefore(jobs: map<nat, Job>, a: nat, b: nat)
    requires a in jobs && b in jobs
  {
    jobs[a].spec.count > jobs[b].spec.count || (jobs[a].spec.count == jobs[b].spec.count && a < b)
  }

  predicate MustWait(d: Daemon, id: nat)
    requires id in d.ledger.jobs
  {
    Allocate(d.ledger.jobs[id].spec, d.devices, Reserved(d)).None?
  }

  /** Of the pending jobs that could be given devices now, this one comes first. */
  predicate IsNextGrant(d: Daemon, id: nat)
    requires id in d.ledger.jobs
  {
    !MustWait(d, id)
    && forall other | other in PendingIds(d.ledger.jobs) && GoesBefore(d.ledger.jobs, other, id) :: MustWait(d, other)
  }

  /** The program, with this limit on running jobs, may take the step. */
  predicate Follows(a: At, step: Step, cap: nat)
    requires Enabled(a.w, step)
  {
    match step
    case Submit(_, spec, _, _) =>
      a.ticked && Allocate(spec, a.w.holder.d.devices, a.w.holder.d.excluded).Some?
    case CancelPending(_, _, _) => a.ticked
    case CancelRunning(_, _) => a.ticked
    case CancelFinished(_) => a.ticked
    case BeginCleanup(_) => a.ticked
    case PollOpens(id) => !a.atLock && IsNextPoll(a, id)
    case PollBusy(id) => a.atLock && a.next == id
    case PollDone(id, _) => a.atLock && a.next == id
    case PollFails(id) => if a.atLock then a.next == id else IsNextPoll(a, id)
    case EndPolls(_) => !a.atLock && forall id | id in RunningIds(a.w.holder.d.ledger.jobs) :: id < a.next
    case Grant(id, _) => |RunningIds(a.w.holder.d.ledger.jobs)| < cap && IsNextGrant(a.w.holder.d, id)
    case EndTick =>
      |RunningIds(a.w.holder.d.ledger.jobs)| >= cap
      || forall id | id in PendingIds(a.w.holder.d.ledger.jobs) :: MustWait(a.w.holder.d, id)
    case _ => true
  }

  function Move(a: At, step: Step): At
    requires Enabled(a.w, step)
  {
    var u := Apply(a.w, step);
    match step
    case Boot(_, _) => At(u, false, 0, false)
    case BeginTick => At(u, a.ticked, 0, false)
    case PollOpens(id) => At(u, a.ticked, id, true)
    case PollBusy(id) => At(u, a.ticked, id + 1, false)
    case PollDone(id, _) => At(u, a.ticked, id + 1, false)
    case EndTick => At(u, true, 0, false)
    case _ => a.(w := u)
  }

  /** A run of the program from one point to the other. */
  ghost predicate Leads(a: At, steps: seq<Step>, b: At, cap: nat)
    decreases |steps|
  {
    if steps == [] then a == b
    else Enabled(a.w, steps[0]) && Follows(a, steps[0], cap) && Leads(Move(a, steps[0]), steps[1..], b, cap)
  }

  lemma LeadsNowhere(a: At, cap: nat)
    ensures Leads(a, [], a, cap)
  {
  }

  lemma LeadsFirst(a: At, step: Step, cap: nat)
    requires Enabled(a.w, step) && Follows(a, step, cap)
    ensures Leads(a, [step], Move(a, step), cap)
  {
    hide Enabled, Follows, Move;
    assert [step][1..] == [];
    LeadsNowhere(Move(a, step), cap);
  }

  lemma {:induction false} LeadsFurther(a: At, s: seq<Step>, b: At, t: seq<Step>, c: At, cap: nat)
    requires Leads(a, s, b, cap) && Leads(b, t, c, cap)
    ensures Leads(a, s + t, c, cap)
    decreases |s|
  {
    hide Enabled, Follows, Move;
    if s == [] {
      assert s + t == t;
    } else {
      assert (s + t)[0] == s[0] && (s + t)[1..] == s[1..] + t;
      LeadsFurther(Move(a, s[0]), s[1..], b, t, c, cap);
    }
  }

  lemma LeadsNext(a: At, steps: seq<Step>, b: At, step: Step, cap: nat)
    requires Leads(a, steps, b, cap) && Enabled(b.w, step) && Follows(b, step, cap)
    ensures Leads(a, steps + [step], Move(b, step), cap)
  {
    hide Enabled, Follows, Move, Leads;
    LeadsFirst(b, step, cap);
    LeadsFurther(a, steps, b, [step], Move(b, step), cap);
  }

  /** Runs of the program are runs of the machine. */
  lemma {:induction false} LeadsIsRun(a: At, steps: seq<Step>, b: At, cap: nat)
    requires Leads(a, steps, b, cap)
    ensures IsRun(a.w, steps) && After(a.w, steps) == b.w
    decreases |steps|
  {
    if steps != [] {
      MoveApplies(a, steps[0]);
      hide Enabled, Follows, Move, Apply;
      LeadsIsRun(Move(a, steps[0]), steps[1..], b, cap);
    }
  }

  lemma MoveApplies(a: At, step: Step)
    requires Enabled(a.w, step)
    ensures Move(a, step).w == Apply(a.w, step)
  {
    hide Enabled, Apply;
  }

  // ----- They are the choices of the start loop -----

  lemma {:induction false} PositionsGoBefore(jobs: seq<Job>, order: seq<nat>, j: nat, k: nat)
    requires Ordered(jobs) && order == StartOrder(jobs) && j < |order| && k < |order|
    ensures order[j] < |jobs| && order[k] < |jobs|
    ensures jobs[order[j]].id in PendingIds(Index(jobs)) && Index(jobs)[jobs[order[j]].id] == jobs[order[j]]
    ensures jobs[order[k]].id in Index(jobs)
    ensures GoesBefore(Index(jobs), jobs[order[j]].id, jobs[order[k]].id) <==> j < k
  {
    hide StartOrder, Index, SortByCount, PendingFrom, InOrder, Ordered, Precedes;
    IndexIsExact(jobs);
    StartOrderIsExact(jobs);
    assert order[j] in order && order[k] in order;
    if j < k {
      InOrderAt(jobs, order, j, k);
    } else if k < j {
      InOrderAt(jobs, order, k, j);
    }
  }

  lemma InOrderAt(jobs: seq<Job>, order: seq<nat>, j: nat, k: nat)
    requires Ordered(jobs) && InOrder(jobs, order) && j < k < |order|
    ensures order[j] < |jobs| && order[k] < |jobs|
    ensures var a, b := jobs[order[j]], jobs[order[k]];
            a.spec.count > b.spec.count || (a.spec.count == b.spec.count && a.id < b.id)
  {
    assert Precedes(jobs, order[j], order[k]);
  }

  lemma {:induction false} PendingHasPosition(jobs: seq<Job>, order: seq<nat>, id: nat) returns (k: nat)
    requires Ordered(jobs) && order == StartOrder(jobs) && id in PendingIds(Index(jobs))
    ensures k < |order| && order[k] < |jobs| && jobs[order[k]].id == id
  {
    IndexIsExact(jobs);
    StartOrderIsExact(jobs);
    hide StartOrder, Index;
    var m: nat :| m < |jobs| && jobs[m].id == id;
    k :| 0 <= k < |order| && order[k] == m;
  }

  /** The loop of a tick examines the pending jobs in the start order: the job that may be granted next is the first of
      that order that is not refused. */
  lemma {:induction false} NextGrantIsFirstInOrder(d: Daemon, jobs: seq<Job>, order: seq<nat>, k: nat)
    requires Ordered(jobs) && d.ledger.jobs == Index(jobs) && order == StartOrder(jobs) && k < |order|
    ensures InRange(order, |jobs|) && jobs[order[k]].id in d.ledger.jobs
    ensures IsNextGrant(d, jobs[order[k]].id) <==>
            && Allocate(jobs[order[k]].spec, d.devices, Reserved(d)).Some?
            && forall j | 0 <= j < k :: Allocate(jobs[order[j]].spec, d.devices, Reserved(d)).None?
  {
    PositionsGoBefore(jobs, order, k, k);
    var id := jobs[order[k]].id;
    forall j | 0 <= j < |order| ensures order[j] < |jobs| { PositionsGoBefore(jobs, order, j, k); }
    hide Allocate, Reserved, StartOrder, Index, Ordered, GoesBefore, PendingIds;
    forall j | 0 <= j < k ensures IsNextGrant(d, id) ==> Allocate(jobs[order[j]].spec, d.devices, Reserved(d)).None? {
      PositionsGoBefore(jobs, order, j, k);
      assert IsNextGrant(d, id) ==> MustWait(d, jobs[order[j]].id);
    }
    forall other | other in PendingIds(Index(jobs)) && other in Index(jobs) && GoesBefore(Index(jobs), other, id)
      ensures exists j :: 0 <= j < k && jobs[order[j]].id == other && Index(jobs)[other] == jobs[order[j]]
    {
      var j := PendingHasPosition(jobs, order, other);
      PositionsGoBefore(jobs, order, j, k);
    }
  }

  /** The counter of the loop is the number of running jobs. */
  lemma {:induction false} RunningIdsAreCounted(jobs: seq<Job>)
    requires Ordered(jobs)
    ensures |RunningIds(Index(jobs))| == RunningCount(jobs)
  {
    if jobs != [] {
      var front, last := jobs[..|jobs| - 1], jobs[|jobs| - 1];
      RunningIdsAreCounted(front);
      LastIsNew(jobs);
      hide RunningIds;
      RunningIdsWith(Index(front), last);
      RunningCountPush(front, last);
      assert front + [last] == jobs;
    }
  }

  lemma {:induction false} LastIsNew(jobs: seq<Job>)
    requires Ordered(jobs) && jobs != []
    ensures jobs[|jobs| - 1].id !in Index(jobs[..|jobs| - 1])
  {
    hide Index;
    var front := jobs[..|jobs| - 1];
    IndexIsExact(front);
    assert forall i | 0 <= i < |front| :: front[i].id == jobs[i].id < jobs[|jobs| - 1].id;
  }

  lemma RunningIdsWith(jobs: map<nat, Job>, job: Job)
    requires job.id !in jobs
    ensures |RunningIds(jobs[job.id := job])| == |RunningIds(jobs)| + if job.state == Running then 1 else 0
  {
    assert RunningIds(jobs[job.id := job]) == RunningIds(jobs) + if job.state == Running then {job.id} else {};
  }

  lemma {:induction false} RunningCountPush(jobs: seq<Job>, job: Job)
    ensures RunningCount(jobs + [job]) == RunningCount(jobs) + if job.state == Running then 1 else 0
  {
    if jobs == [] {
      assert jobs + [job] == [job] && [job][1..] == [];
    } else {
      assert (jobs + [job])[1..] == jobs[1..] + [job];
      RunningCountPush(jobs[1..], job);
    }
  }

  // ----- The choices are forced, and there always is one -----

  lemma {:induction false} LeastOf(ids: set<nat>) returns (least: nat)
    requires ids != {}
    ensures least in ids && forall id | id in ids :: least <= id
  {
    least :| least in ids;
    if ids != {least} {
      var rest := LeastOf(ids - {least});
      assert forall id | id in ids :: id == least || id in ids - {least};
      least := if rest < least then rest else least;
    }
  }

  /** Of some jobs there is one that none of the others goes before. */
  lemma {:induction false} FirstOf(jobs: map<nat, Job>, ids: set<nat>) returns (first: nat)
    requires ids != {} && ids <= jobs.Keys
    ensures first in ids && forall id | id in ids :: !GoesBefore(jobs, id, first)
  {
    first :| first in ids;
    if ids != {first} {
      var rest := FirstOf(jobs, ids - {first});
      assert forall id | id in ids :: id == first || id in ids - {first};
      first := if GoesBefore(jobs, rest, first) then rest else first;
    }
  }

  /** In the middle of the polls, and of the start loop, the program can go on in one way only. */
  lemma ChoiceIsForced(a: At, x: Step, y: Step, cap: nat)
    requires Enabled(a.w, x) && Follows(a, x, cap) && Enabled(a.w, y) && Follows(a, y, cap)
    ensures x.PollOpens? && y.PollOpens? ==> x == y
    ensures !(x.PollOpens? && y.EndPolls?)
    ensures x.Grant? && y.Grant? ==> x.id == y.id
    ensures !(x.Grant? && y.EndTick?)
  {
    if x.PollOpens? && y.PollOpens? {
      assert x.id <= y.id && y.id <= x.id;
    } else if x.Grant? && y.Grant? {
      assert x.id in PendingIds(a.w.holder.d.ledger.jobs) && y.id in PendingIds(a.w.holder.d.ledger.jobs);
      assert !GoesBefore(a.w.holder.d.ledger.jobs, x.id, y.id) && !GoesBefore(a.w.holder.d.ledger.jobs, y.id, x.id);
    }
  }

  /** And it can go on: it polls the next running job or ends the polls, grants the next pending job or ends the tick.
      */
  lemma ChoiceIsThere(a: At, now: nat, cap: nat) returns (step: Step)
    requires (a.w.holder.Serving? && a.w.holder.d.phase.Polling? && !a.atLock) || AtPhase(a.w, Granting)
    ensures step in {EndPolls(Saved), EndTick} || step.PollOpens? || (step.Grant? && step.now == now)
    ensures Enabled(a.w, step) && Follows(a, step, cap)
  {
    var d := a.w.holder.d;
    if d.phase.Polling? {
      var ahead := set id | id in RunningIds(d.ledger.jobs) && a.next <= id;
      if ahead == {} {
        step := EndPolls(Saved);
        assert forall id | id in RunningIds(d.ledger.jobs) :: id !in ahead;
      } else {
        var id := LeastOf(ahead);
        step := PollOpens(id);
        assert forall other | other in RunningIds(d.ledger.jobs) && a.next <= other :: other in ahead;
      }
    } else {
      var ready := set id | id in PendingIds(d.ledger.jobs) && !MustWait(d, id);
      if |RunningIds(d.ledger.jobs)| >= cap || ready == {} {
        step := EndTick;
        assert forall id | id in PendingIds(d.ledger.jobs) :: id !in ready ==> MustWait(d, id);
      } else {
        var id := FirstOf(d.ledger.jobs, ready);
        step := Grant(id, now);
        assert forall other | other in PendingIds(d.ledger.jobs) && !MustWait(d, other) :: other in ready;
      }
    }
  }

  // ----- Runs without submissions and deaths -----

  /** The run submits nothing. */
  predicate NoSubmission(steps: seq<Step>) {
    forall step | step in steps :: !step.Submit?
  }

  /** In the run no worker dies without cleaning up. */
  predicate NoDeath(steps: seq<Step>) {
    forall step | step in steps :: !step.WorkerDies?
  }

  /** A run of the program in which nothing is submitted and no worker dies. */
  ghost predicate Path(a: At, steps: seq<Step>, b: At, cap: nat) {
    Leads(a, steps, b, cap) && NoSubmission(steps) && NoDeath(steps)
  }

  lemma PathFirst(a: At, step: Step, cap: nat)
    requires Enabled(a.w, step) && Follows(a, step, cap) && !step.Submit? && !step.WorkerDies?
    ensures Path(a, [step], Move(a, step), cap)
  {
    hide Enabled, Follows, Move, Leads;
    LeadsFirst(a, step, cap);
  }

  lemma PathFurther(a: At, s: seq<Step>, b: At, t: seq<Step>, c: At, cap: nat)
    requires Path(a, s, b, cap) && Path(b, t, c, cap)
    ensures Path(a, s + t, c, cap)
  {
    hide Leads;
    LeadsFurther(a, s, b, t, c, cap);
  }

  lemma PathNext(a: At, steps: seq<Step>, b: At, step: Step, cap: nat)
    requires Path(a, steps, b, cap) && Enabled(b.w, step) && Follows(b, step, cap)
    requires !step.Submit? && !step.WorkerDies?
    ensures Path(a, steps + [step], Move(b, step), cap)
  {
    hide Enabled, Follows, Move, Path;
    PathFirst(b, step, cap);
    PathFurther(a, steps, b, [step], Move(b, step), cap);
  }
}
