/** The store as the program keeps it, a list of jobs in submission order, and the ledger it stands for. */
module Stores {
  import opened Model
  import opened Planner
  import opened Machine

  datatype Store = Store(nextId: nat, jobs: seq<Job>)

  /** Submission order is ID order. */
  ghost predicate Ordered(jobs: seq<Job>) {
    forall i, j | 0 <= i < j < |jobs| :: jobs[i].id < jobs[j].id
  }

  function Index(jobs: seq<Job>): map<nat, Job> {
    if jobs == [] then map[]
    else Index(jobs[..|jobs| - 1])[jobs[|jobs| - 1].id := jobs[|jobs| - 1]]
  }

  function LedgerOf(store: Store): Ledger {
    Ledger(store.nextId, Index(store.jobs))
  }

  lemma {:induction false} IndexIsExact(jobs: seq<Job>)
    requires Ordered(jobs)
    ensures forall i | 0 <= i < |jobs| :: jobs[i].id in Index(jobs) && Index(jobs)[jobs[i].id] == jobs[i]
    ensures forall id | id in Index(jobs) :: exists i | 0 <= i < |jobs| :: jobs[i].id == id
  {
    if jobs != [] {
      var front, last := jobs[..|jobs| - 1], jobs[|jobs| - 1];
      IndexIsExact(front);
      forall i | 0 <= i < |jobs| ensures jobs[i].id in Index(jobs) && Index(jobs)[jobs[i].id] == jobs[i] {
        if i < |front| { assert front[i] == jobs[i]; }
      }
      forall id | id in Index(jobs) ensures exists i | 0 <= i < |jobs| :: jobs[i].id == id {
        if id == last.id {
          assert jobs[|jobs| - 1].id == id;
        } else {
          assert id in Index(front);
          var i :| 0 <= i < |front| && front[i].id == id;
          assert jobs[i].id == id;
        }
      }
    }
  }

  lemma OrderedPush(jobs: seq<Job>, job: Job)
    requires Ordered(jobs) && forall i | 0 <= i < |jobs| :: jobs[i].id < job.id
    ensures Ordered(jobs + [job])
  {
  }

  lemma IndexPush(jobs: seq<Job>, job: Job)
    ensures Index(jobs + [job]) == Index(jobs)[job.id := job]
  {
    assert (jobs + [job])[..|jobs|] == jobs;
  }

  lemma {:induction false} IndexUpdate(jobs: seq<Job>, i: nat, job: Job)
    requires Ordered(jobs) && i < |jobs| && job.id == jobs[i].id
    ensures Ordered(jobs[i := job]) && Index(jobs[i := job]) == Index(jobs)[job.id := job]
  {
    var updated := jobs[i := job];
    var front, last := jobs[..|jobs| - 1], jobs[|jobs| - 1];
    if i == |jobs| - 1 {
      assert updated[..|jobs| - 1] == front;
    } else {
      IndexUpdate(front, i, job);
      assert updated[..|jobs| - 1] == front[i := job];
      assert last.id != job.id;
    }
  }

  lemma NoneRunningInIndex(jobs: seq<Job>)
    requires Ordered(jobs)
    ensures NoneRunning(Index(jobs)) <==> forall i | 0 <= i < |jobs| :: jobs[i].state != Running
  {
    IndexIsExact(jobs);
    if forall i | 0 <= i < |jobs| :: jobs[i].state != Running {
      forall id | id in Index(jobs) ensures Index(jobs)[id].state != Running {
        var i :| 0 <= i < |jobs| && jobs[i].id == id;
        assert Index(jobs)[jobs[i].id] == jobs[i];
      }
    }
  }

  /** The jobs a clean-up keeps. */
  function Retained(jobs: seq<Job>, expired: set<nat>): seq<Job> {
    if jobs == [] then []
    else
      var rest := Retained(jobs[..|jobs| - 1], expired);
      if jobs[|jobs| - 1].id in expired then rest else rest + [jobs[|jobs| - 1]]
  }

  lemma {:induction false} NothingRetained(jobs: seq<Job>)
    ensures Retained(jobs, {}) == jobs
  {
    if jobs != [] {
      NothingRetained(jobs[..|jobs| - 1]);
      assert jobs == jobs[..|jobs| - 1] + [jobs[|jobs| - 1]];
    }
  }

  lemma {:induction false} RetainedIsOrdered(jobs: seq<Job>, expired: set<nat>)
    requires Ordered(jobs)
    ensures Ordered(Retained(jobs, expired))
    ensures forall job :: job in Retained(jobs, expired) <==> job in jobs && job.id !in expired
  {
    if jobs != [] {
      var front, last := jobs[..|jobs| - 1], jobs[|jobs| - 1];
      RetainedIsOrdered(front, expired);
      assert jobs == front + [last];
      var rest := Retained(front, expired);
      forall k | 0 <= k < |rest| ensures rest[k].id < last.id {
        assert rest[k] in front;
      }
    }
  }

  lemma WithoutUpdate(jobs: map<nat, Job>, job: Job, expired: set<nat>)
    ensures Without(jobs[job.id := job], expired) ==
            if job.id in expired then Without(jobs, expired) else Without(jobs, expired)[job.id := job]
  {
  }

  lemma {:induction false} IndexRetained(jobs: seq<Job>, expired: set<nat>)
    ensures Index(Retained(jobs, expired)) == Without(Index(jobs), expired)
  {
    if jobs == [] {
      assert Without(map[], expired) == map[];
    } else {
      hide Without;
      var front, last := jobs[..|jobs| - 1], jobs[|jobs| - 1];
      IndexRetained(front, expired);
      WithoutUpdate(Index(front), last, expired);
      if last.id !in expired { IndexPush(Retained(front, expired), last); }
    }
  }

  function ExpiredOf(jobs: seq<Job>, now: nat): set<nat> {
    set job | job in jobs && Expired(job, now) :: job.id
  }

  lemma ExpiredIndex(jobs: seq<Job>, now: nat)
    requires Ordered(jobs)
    ensures ExpiredOf(jobs, now) == ExpiredIds(Index(jobs), now)
  {
    IndexIsExact(jobs);
    forall id ensures id in ExpiredOf(jobs, now) <==> id in ExpiredIds(Index(jobs), now) {
      if id in ExpiredOf(jobs, now) {
        var job :| job in jobs && Expired(job, now) && job.id == id;
        var i :| 0 <= i < |jobs| && jobs[i] == job;
        assert Index(jobs)[jobs[i].id] == jobs[i];
      }
      if id in ExpiredIds(Index(jobs), now) {
        var i :| 0 <= i < |jobs| && jobs[i].id == id;
        assert Index(jobs)[jobs[i].id] == jobs[i] && jobs[i] in jobs;
      }
    }
  }

  /** The job ended at least a week, 604800 seconds, ago. */
  predicate Outdated(job: Job, now: nat) {
    && job.state in {Completed, Failed, Cancelled, TimedOut}
    && job.result.Some? && job.result.value.finishedAt + 604800 <= now
  }

  /** What a clean-up keeps: every job but those. */
  ghost predicate Keeps(before: seq<Job>, after: seq<Job>, now: nat) {
    forall job :: job in after <==> job in before && !Outdated(job, now)
  }

  lemma ExpiredIsOutdated(jobs: seq<Job>, now: nat)
    requires Ordered(jobs)
    ensures forall id :: id in ExpiredOf(jobs, now) <==> exists job :: job in jobs && job.id == id && Outdated(job, now)
    ensures Keeps(jobs, Retained(jobs, ExpiredOf(jobs, now)), now) && Ordered(Retained(jobs, ExpiredOf(jobs, now)))
  {
    forall job ensures Expired(job, now) <==> Outdated(job, now) {}
    hide Expired, Outdated;
    RetainedIsOrdered(jobs, ExpiredOf(jobs, now));
    forall job | job in jobs ensures job.id in ExpiredOf(jobs, now) <==> Expired(job, now) {
      if job.id in ExpiredOf(jobs, now) {
        var other :| other in jobs && Expired(other, now) && other.id == job.id;
        var i, j :| 0 <= i < |jobs| && 0 <= j < |jobs| && jobs[i] == job && jobs[j] == other;
        assert i == j;
      }
    }
  }

  /** The keys held by the running jobs do not depend on how the store is kept. */
  lemma HeldKeysAreHeld(jobs: seq<Job>)
    requires Ordered(jobs)
    ensures HeldKeys(jobs) == Held(Index(jobs))
  {
    IndexIsExact(jobs);
    HeldKeysMeaning(jobs);
    forall key ensures key in HeldKeys(jobs) <==> key in Held(Index(jobs)) {
      if key in HeldKeys(jobs) {
        var i :| 0 <= i < |jobs| && jobs[i].state == Running && key in Keys(jobs[i].devices);
        assert Index(jobs)[jobs[i].id] == jobs[i];
      }
      if key in Held(Index(jobs)) {
        var id, d :| id in Index(jobs) && Index(jobs)[id].state == Running && d in Index(jobs)[id].devices
            && d.Key() == key;
        var i :| 0 <= i < |jobs| && jobs[i].id == id;
        assert key in Keys(jobs[i].devices);
      }
    }
  }

  lemma {:induction false} HeldKeysMeaning(jobs: seq<Job>)
    ensures forall key :: key in HeldKeys(jobs) <==>
              exists i | 0 <= i < |jobs| :: jobs[i].state == Running && key in Keys(jobs[i].devices)
  {
    if jobs != [] {
      HeldKeysMeaning(jobs[1..]);
      forall key ensures key in HeldKeys(jobs) <==>
          exists i | 0 <= i < |jobs| :: jobs[i].state == Running && key in Keys(jobs[i].devices)
      {
        if key in HeldKeys(jobs[1..]) {
          var i :| 0 <= i < |jobs[1..]| && jobs[1..][i].state == Running && key in Keys(jobs[1..][i].devices);
          assert jobs[i + 1].state == Running && key in Keys(jobs[i + 1].devices);
        }
        if i :| 0 <= i < |jobs| && jobs[i].state == Running && key in Keys(jobs[i].devices) {
          if i > 0 { assert jobs[1..][i - 1].state == Running && key in Keys(jobs[1..][i - 1].devices); }
        }
      }
    }
  }

  /** The position of a job, as the program's searches find it. */
  function Find(jobs: seq<Job>, id: nat): (r: Option<nat>)
    ensures r.Some? ==> r.value < |jobs| && jobs[r.value].id == id && forall k | 0 <= k < r.value :: jobs[k].id != id
    ensures r.None? ==> forall k | 0 <= k < |jobs| :: jobs[k].id != id
  {
    FindFrom(jobs, id, 0)
  }

  function FindFrom(jobs: seq<Job>, id: nat, lo: nat): (r: Option<nat>)
    requires lo <= |jobs|
    ensures r.Some? ==> lo <= r.value < |jobs| && jobs[r.value].id == id && forall k | lo <= k < r.value ::
              jobs[k].id != id
    ensures r.None? ==> forall k | lo <= k < |jobs| :: jobs[k].id != id
    decreases |jobs| - lo
  {
    if lo == |jobs| then None else if jobs[lo].id == id then Some(lo) else FindFrom(jobs, id, lo + 1)
  }

  // ----- What a tick's first loop may do to a job -----

  ghost predicate PolledFrom(before: Job, after: Job) {
    after == before
    || (before.state == Running && after.state in {Completed, Failed, Cancelled, TimedOut}
        && after.result.Some? && after.result.value.state == after.state
        && after == Job(before.id, before.owner, before.spec, after.state, before.devices, before.submittedAt,
                        before.startedAt, after.result))
  }

  ghost predicate AllPolledFrom(before: seq<Job>, after: seq<Job>) {
    |before| == |after| && forall i | 0 <= i < |before| :: PolledFrom(before[i], after[i])
  }

  /** The recorded steps show the poll: a job still running was found with a live worker, a finished one without. */
  ghost predicate Polled(id: nat, after: Job, now: nat, steps: seq<Step>) {
    (if after.state == Running then PollBusy(id) else PollDone(id, now)) in steps
  }

  /** The first n jobs have been polled, the others are as before. */
  ghost predicate AllPolled(before: seq<Job>, n: nat, after: seq<Job>, now: nat, steps: seq<Step>) {
    && |before| == |after| && n <= |before|
    && (forall i | 0 <= i < n && before[i].state == Running :: Polled(before[i].id, after[i], now, steps))
    && (forall i | n <= i < |before| :: after[i] == before[i])
  }

  lemma PolledNext(before: seq<Job>, i: nat, jobs: seq<Job>, after: seq<Job>, now: nat, steps: seq<Step>,
                   more: seq<Step>)
    requires AllPolled(before, i, jobs, now, steps) && i < |before| && |after| == |jobs|
    requires forall k | 0 <= k < |jobs| && k != i :: after[k] == jobs[k]
    requires jobs[i].state == Running ==> Polled(jobs[i].id, after[i], now, more)
    ensures AllPolled(before, i + 1, after, now, steps + more)
  {
  }

  /** Either nothing has changed, in memory or in the file, or the file holds what is in memory. */
  ghost predicate SavedOrSame(durable: Store, jobs: seq<Job>, durable': Store, memory: Store) {
    durable' == memory || (durable' == durable && memory.jobs == jobs)
  }

  lemma NothingPolled(jobs: seq<Job>)
    ensures AllPolledFrom(jobs, jobs)
  {
  }

  lemma PolledLast(id: nat, after: Job, now: nat, steps: seq<Step>, n: nat)
    requires n < |steps| && steps[|steps| - 1] == if after.state == Running then PollBusy(id) else PollDone(id, now)
    ensures Polled(id, after, now, steps[n..])
  {
    assert steps[n..][|steps| - 1 - n] == steps[|steps| - 1];
  }

  lemma NonePolled(jobs: seq<Job>, now: nat)
    ensures AllPolled(jobs, 0, jobs, now, [])
  {
  }

  lemma PolledLater(before: seq<Job>, after: seq<Job>, now: nat, steps: seq<Step>, all: seq<Step>)
    requires AllPolled(before, |after|, after, now, steps) && forall step | step in steps :: step in all
    ensures AllPolled(before, |after|, after, now, all)
  {
  }

  lemma RetainedStaysAdmitted(jobs: seq<Job>, expired: set<nat>, devices: seq<Device>)
    requires Ordered(jobs)
    ensures forall limit | AllAdmitted(jobs, devices, limit) :: AllAdmitted(Retained(jobs, expired), devices, limit)
  {
    RetainedIsOrdered(jobs, expired);
    forall limit | AllAdmitted(jobs, devices, limit) ensures AllAdmitted(Retained(jobs, expired), devices, limit) {
      AdmittedStays(jobs, Retained(jobs, expired), devices, limit);
    }
  }

  /** Polls and the start loop leave pending only jobs that were. */
  lemma TickKeepsPending(before: seq<Job>, polled: seq<Job>, withheld: set<Key>, after: seq<Job>, withheld': set<Key>,
                         devices: seq<Device>, cap: nat, failures: map<nat, string>, now: nat)
    requires AllPolledFrom(before, polled)
    requires StartLoop(polled, withheld, after, withheld', devices, cap, failures, now)
    ensures forall job | job in after && job.state == Pending :: job in before
    ensures forall limit | AllAdmitted(before, devices, limit) :: AllAdmitted(after, devices, limit)
  {
    hide StartLoop;
    LoopKeepsPending(polled, withheld, after, withheld', devices, cap, failures, now);
    forall job | job in after && job.state == Pending ensures job in before {
      var i :| 0 <= i < |after| && after[i] == job;
      assert before[i] == polled[i];
    }
    forall limit | AllAdmitted(before, devices, limit) ensures AllAdmitted(after, devices, limit) {
      AdmittedStays(before, after, devices, limit);
    }
  }

  lemma PolledOnce(start: seq<Job>, jobs: seq<Job>, i: nat, outcome: Outcome)
    requires AllPolledFrom(start, jobs) && i < |jobs| && jobs[i].state == Running && outcome.state.Terminal()
    ensures AllPolledFrom(start, jobs[i := jobs[i].Finish(outcome)])
  {
  }
}
