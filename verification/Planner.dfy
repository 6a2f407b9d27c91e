/** The start loop of Scheduler::tick (src/scheduler.rs:257-317) as a function of its inputs, and its laws. */
module Planner {
  import opened Model
  import opened Allocator

  predicate InRange(indices: seq<nat>, bound: nat) {
    forall k | 0 <= k < |indices| :: indices[k] < bound
  }

  // ----- The order in which pending jobs are examined -----

  function PendingFrom(jobs: seq<Job>, lo: nat): (indices: seq<nat>)
    requires lo <= |jobs|
    ensures forall i | 0 <= i < |indices| :: lo <= indices[i] < |jobs| && jobs[indices[i]].state == Pending
    ensures forall i, j | 0 <= i < j < |indices| :: indices[i] < indices[j]
    ensures forall p | lo <= p < |jobs| && jobs[p].state == Pending :: p in indices
    decreases |jobs| - lo
  {
    if lo == |jobs| then []
    else (if jobs[lo].state == Pending then [lo] else []) + PendingFrom(jobs, lo + 1)
  }

  /** More requested devices first; equal requests keep submission order. */
  predicate Precedes(jobs: seq<Job>, a: nat, b: nat) {
    a < |jobs| && b < |jobs|
    && (jobs[a].spec.count > jobs[b].spec.count || (jobs[a].spec.count == jobs[b].spec.count && a < b))
  }

  ghost predicate InOrder(jobs: seq<Job>, order: seq<nat>) {
    forall i, j | 0 <= i < j < |order| :: Precedes(jobs, order[i], order[j])
  }

  /** One step of a stable descending sort: x goes before every element that does not ask for more. */
  function Insert(jobs: seq<Job>, x: nat, sorted: seq<nat>): (r: seq<nat>)
    requires x < |jobs| && InRange(sorted, |jobs|)
    ensures forall y :: y in r <==> y == x || y in sorted
    ensures |r| == |sorted| + 1 && InRange(r, |jobs|)
  {
    if sorted == [] || jobs[sorted[0]].spec.count <= jobs[x].spec.count then [x] + sorted
    else [sorted[0]] + Insert(jobs, x, sorted[1..])
  }

  function SortByCount(jobs: seq<Job>, indices: seq<nat>): (order: seq<nat>)
    requires InRange(indices, |jobs|)
    ensures forall y :: y in order <==> y in indices
    ensures |order| == |indices| && InRange(order, |jobs|)
  {
    if indices == [] then [] else Insert(jobs, indices[0], SortByCount(jobs, indices[1..]))
  }

  function StartOrder(jobs: seq<Job>): seq<nat> {
    SortByCount(jobs, PendingFrom(jobs, 0))
  }

  lemma {:induction false} InsertKeepsOrder(jobs: seq<Job>, x: nat, sorted: seq<nat>)
    requires x < |jobs| && InOrder(jobs, sorted) && InRange(sorted, |jobs|)
    requires forall k | 0 <= k < |sorted| :: x < sorted[k]
    ensures InOrder(jobs, Insert(jobs, x, sorted))
  {
    if sorted != [] && jobs[sorted[0]].spec.count > jobs[x].spec.count {
      var rest := Insert(jobs, x, sorted[1..]);
      InsertKeepsOrder(jobs, x, sorted[1..]);
      forall j | 0 <= j < |rest| ensures Precedes(jobs, sorted[0], rest[j]) {
        assert rest[j] in rest;
      }
    } else if sorted != [] {
      forall j | 0 <= j < |sorted| ensures Precedes(jobs, x, sorted[j]) {
        assert j > 0 ==> Precedes(jobs, sorted[0], sorted[j]);
        assert sorted[j] in sorted;
      }
    }
  }

  lemma {:induction false} SortIsStable(jobs: seq<Job>, indices: seq<nat>)
    requires InRange(indices, |jobs|)
    requires forall i, j | 0 <= i < j < |indices| :: indices[i] < indices[j]
    ensures InOrder(jobs, SortByCount(jobs, indices))
  {
    if indices != [] {
      SortIsStable(jobs, indices[1..]);
      var rest := SortByCount(jobs, indices[1..]);
      forall k | 0 <= k < |rest| ensures indices[0] < rest[k] {
        assert rest[k] in indices[1..];
      }
      InsertKeepsOrder(jobs, indices[0], rest);
    }
  }

  /** The start order lists exactly the pending jobs, each once, by device count and then by submission. */
  lemma StartOrderIsExact(jobs: seq<Job>)
    ensures InOrder(jobs, StartOrder(jobs)) && NoDuplicates(StartOrder(jobs))
    ensures forall i :: i in StartOrder(jobs) <==> 0 <= i < |jobs| && jobs[i].state == Pending
    ensures var order := StartOrder(jobs);
            forall i, j | 0 <= i < j < |order| ::
              && order[i] < |jobs| && order[j] < |jobs|
              && (jobs[order[i]].spec.count > jobs[order[j]].spec.count
                  || (jobs[order[i]].spec.count == jobs[order[j]].spec.count && order[i] < order[j]))
  {
    SortIsStable(jobs, PendingFrom(jobs, 0));
    var order := StartOrder(jobs);
    forall i, j | 0 <= i < j < |order| ensures order[i] != order[j] {
      assert Precedes(jobs, order[i], order[j]);
    }
  }

  /** No other list of the pending jobs is in that order. */
  lemma {:induction false} OrderIsUnique(jobs: seq<Job>, a: seq<nat>, b: seq<nat>)
    requires InOrder(jobs, a) && InOrder(jobs, b)
    requires forall i :: i in a <==> i in b
    ensures a == b
  {
    assert |a| > 0 ==> a[0] in a;
    assert |b| > 0 ==> b[0] in b;
    if a != [] {
      forall i ensures i in a[1..] <==> i in b[1..] {
        if i in a[1..] {
          var k :| 0 <= k < |a[1..]| && a[1..][k] == i;
          assert Precedes(jobs, a[0], a[k + 1]) && i in b;
        }
        if i in b[1..] {
          var k :| 0 <= k < |b[1..]| && b[1..][k] == i;
          assert Precedes(jobs, b[0], b[k + 1]) && i in a;
        }
      }
      OrderIsUnique(jobs, a[1..], b[1..]);
    }
  }

  // ----- Greedy starting -----

  datatype Plan = Plan(jobs: seq<Job>, reserved: set<Key>, running: nat)

  /** The start loop. failures gives, by job ID, the message of every start that fails. */
  function Greedy(order: seq<nat>, p: Plan, devices: seq<Device>, cap: nat, failures: map<nat, string>, now: nat)
    : (q: Plan)
    requires InRange(order, |p.jobs|)
    ensures |q.jobs| == |p.jobs| && forall i | 0 <= i < |p.jobs| :: q.jobs[i].id == p.jobs[i].id
  {
    if order == [] || p.running >= cap then p
    else Greedy(order[1..], StartOne(order[0], p, devices, failures, now), devices, cap, failures, now)
  }

  /** One examined job: left pending, started, or started in vain. */
  function StartOne(i: nat, p: Plan, devices: seq<Device>, failures: map<nat, string>, now: nat): (q: Plan)
    requires i < |p.jobs|
    ensures |q.jobs| == |p.jobs| && forall k | 0 <= k < |p.jobs| :: q.jobs[k].id == p.jobs[k].id
    ensures forall k | 0 <= k < |p.jobs| && k != i :: q.jobs[k] == p.jobs[k]
  {
    var granted := Allocate(p.jobs[i].spec, devices, p.reserved);
    if granted.None? then p
    else
      var started := p.jobs[i].Start(granted.value, now);
      if started.id in failures then
        p.(jobs := p.jobs[i := started.Finish(Failure(failures[started.id], now))])
      else
        Plan(p.jobs[i := started], p.reserved + Keys(granted.value), p.running + 1)
  }

  function RunningCount(jobs: seq<Job>): nat {
    if jobs == [] then 0 else RunningCount(jobs[1..]) + if jobs[0].state == Running then 1 else 0
  }

  function PendingCount(jobs: seq<Job>): nat {
    if jobs == [] then 0 else PendingCount(jobs[1..]) + if jobs[0].state == Pending then 1 else 0
  }

  function HeldKeys(jobs: seq<Job>): set<Key> {
    if jobs == [] then {}
    else (if jobs[0].state == Running then Keys(jobs[0].devices) else {}) + HeldKeys(jobs[1..])
  }

  /** The part of a plan's input that a tick establishes before the loop. */
  ghost predicate Ready(order: seq<nat>, p: Plan) {
    && NoDuplicates(order) && InRange(order, |p.jobs|)
    && forall k | 0 <= k < |order| :: p.jobs[order[k]].state == Pending && ValidRequest(p.jobs[order[k]].spec)
  }

  lemma OrderIsSimple(order: seq<nat>, p: Plan)
    requires Ready(order, p)
    ensures NoDuplicates(order) && InRange(order, |p.jobs|)
  {
  }

  lemma ReadyRest(order: seq<nat>, p: Plan, devices: seq<Device>, failures: map<nat, string>, now: nat)
    requires order != [] && Ready(order, p)
    ensures Ready(order[1..], p) && Ready(order[1..], StartOne(order[0], p, devices, failures, now))
    ensures order[0] !in order[1..]
  {
    assert forall k | 0 <= k < |order[1..]| :: order[1..][k] == order[k + 1];
  }

  /** The loop reads and writes the listed jobs only, and only ever reserves more. */
  lemma {:induction false} GreedyFrame(order: seq<nat>, p: Plan, devices: seq<Device>, cap: nat,
                                       failures: map<nat, string>, now: nat)
    requires Ready(order, p)
    ensures var q := Greedy(order, p, devices, cap, failures, now);
            && p.reserved <= q.reserved && p.running <= q.running
            && forall k | 0 <= k < |p.jobs| && k !in order :: q.jobs[k] == p.jobs[k]
    decreases |order|
  {
    if order != [] && p.running < cap {
      ReadyRest(order, p, devices, failures, now);
      GreedyFrame(order[1..], StartOne(order[0], p, devices, failures, now), devices, cap, failures, now);
    }
  }

  /** Work conservation: the loop stops at the cap, or no listed job still pending could be given devices
      out of what is left at the end. */
  lemma {:induction false} WorkConserving(order: seq<nat>, p: Plan, devices: seq<Device>, cap: nat,
                                          failures: map<nat, string>, now: nat)
    requires Ready(order, p)
    ensures var q := Greedy(order, p, devices, cap, failures, now);
            q.running >= cap || forall i | i in order && q.jobs[i].state == Pending ::
              Allocate(q.jobs[i].spec, devices, q.reserved).None?
    decreases |order|
  {
    if order != [] && p.running < cap {
      var p' := StartOne(order[0], p, devices, failures, now);
      var q := Greedy(order, p, devices, cap, failures, now);
      ReadyRest(order, p, devices, failures, now);
      WorkConserving(order[1..], p', devices, cap, failures, now);
      GreedyFrame(order[1..], p', devices, cap, failures, now);
      if q.running < cap && q.jobs[order[0]].state == Pending {
        AllocateAntitone(p.jobs[order[0]].spec, devices, p.reserved, q.reserved);
      }
      assert forall i | i in order :: i == order[0] || i in order[1..];
    }
  }

  /** The keys given by the loop to the listed jobs. */
  function GivenTo(order: seq<nat>, q: Plan): set<Key>
    requires InRange(order, |q.jobs|)
  {
    if order == [] then {}
    else (if q.jobs[order[0]].state == Running then Keys(q.jobs[order[0]].devices) else {}) + GivenTo(order[1..], q)
  }

  /** Everything granted was free when the loop began, and the reserved set grows by exactly what was given. */
  lemma {:induction false} GrantsAreFresh(order: seq<nat>, p: Plan, devices: seq<Device>, cap: nat,
                                          failures: map<nat, string>, now: nat)
    requires Ready(order, p) && DistinctKeys(devices)
    ensures var q := Greedy(order, p, devices, cap, failures, now);
            && GivenTo(order, q) !! p.reserved && q.reserved == p.reserved + GivenTo(order, q)
    decreases |order|
  {
    var q := Greedy(order, p, devices, cap, failures, now);
    if order != [] && p.running < cap {
      var p' := StartOne(order[0], p, devices, failures, now);
      ReadyRest(order, p, devices, failures, now);
      GrantsAreFresh(order[1..], p', devices, cap, failures, now);
      GreedyFrame(order[1..], p', devices, cap, failures, now);
      if Allocate(p.jobs[order[0]].spec, devices, p.reserved).Some? {
        AllocateGrants(p.jobs[order[0]].spec, devices, p.reserved);
      }
    } else {
      NothingGiven(order, p);
    }
  }

  lemma {:induction false} NothingGiven(order: seq<nat>, p: Plan)
    requires InRange(order, |p.jobs|) && forall k | 0 <= k < |order| :: p.jobs[order[k]].state == Pending
    ensures GivenTo(order, p) == {}
  {
    if order != [] { NothingGiven(order[1..], p); }
  }

  /** Backfilling delays nobody within a tick. Up to the position where the cap stops the loop, a job that
      was examined and left pending could not have been served even if every device given to the jobs after
      it were handed back; from that position on, the jobs are exactly as before. */
  lemma {:induction false} NoDelay(order: seq<nat>, p: Plan, devices: seq<Device>, cap: nat, failures: map<nat, string>,
                                   now: nat)
    returns (cut: nat)
    requires Ready(order, p) && DistinctKeys(devices)
    ensures cut <= |order|
    ensures var q := Greedy(order, p, devices, cap, failures, now);
            && (cut < |order| ==> q.running >= cap)
            && (forall k | cut <= k < |order| :: q.jobs[order[k]] == p.jobs[order[k]])
            && (forall k | 0 <= k < cut && q.jobs[order[k]].state == Pending ::
                  Allocate(q.jobs[order[k]].spec, devices, q.reserved - GivenTo(order[k + 1..], q)).None?)
    decreases |order|
  {
    cut := 0;
    if order != [] && p.running < cap {
      var p' := StartOne(order[0], p, devices, failures, now);
      var q := Greedy(order, p, devices, cap, failures, now);
      ReadyRest(order, p, devices, failures, now);
      var cut' := NoDelay(order[1..], p', devices, cap, failures, now);
      GreedyFrame(order[1..], p', devices, cap, failures, now);
      GrantsAreFresh(order[1..], p', devices, cap, failures, now);
      cut := cut' + 1;
      forall k | 0 <= k < cut && q.jobs[order[k]].state == Pending
        ensures Allocate(q.jobs[order[k]].spec, devices, q.reserved - GivenTo(order[k + 1..], q)).None?
      {
        if k == 0 {
          AllocateAntitone(p.jobs[order[0]].spec, devices, p.reserved, q.reserved - GivenTo(order[1..], q));
        } else {
          assert order[1..][k - 1] == order[k] && order[1..][k..] == order[k + 1..];
        }
      }
      forall k | cut <= k < |order| ensures q.jobs[order[k]] == p.jobs[order[k]] {
        assert order[1..][k - 1] == order[k];
      }
    }
  }

  lemma {:induction false} RunningCountUpdate(jobs: seq<Job>, i: nat, job: Job)
    requires i < |jobs| && jobs[i].state != Running
    ensures RunningCount(jobs[i := job]) == RunningCount(jobs) + if job.state == Running then 1 else 0
  {
    if i > 0 {
      RunningCountUpdate(jobs[1..], i - 1, job);
      assert jobs[i := job][1..] == jobs[1..][i - 1 := job];
    } else {
      assert jobs[i := job][1..] == jobs[1..];
    }
  }

  lemma {:induction false} PendingCountUpdate(jobs: seq<Job>, i: nat, job: Job)
    requires i < |jobs| && jobs[i].state == Pending && job.state != Pending
    ensures PendingCount(jobs[i := job]) == PendingCount(jobs) - 1
  {
    if i > 0 {
      PendingCountUpdate(jobs[1..], i - 1, job);
      assert jobs[i := job][1..] == jobs[1..][i - 1 := job];
    } else {
      assert jobs[i := job][1..] == jobs[1..];
    }
  }

  /** The local counter is the number of running jobs, and the loop never takes it past the cap. */
  lemma {:induction false} CapHolds(order: seq<nat>, p: Plan, devices: seq<Device>, cap: nat,
                                    failures: map<nat, string>, now: nat)
    requires Ready(order, p) && p.running == RunningCount(p.jobs)
    ensures var q := Greedy(order, p, devices, cap, failures, now);
            && q.running == RunningCount(q.jobs)
            && q.running <= if p.running < cap then cap else p.running
    decreases |order|
  {
    if order != [] && p.running < cap {
      var i := order[0];
      var granted := Allocate(p.jobs[i].spec, devices, p.reserved);
      if granted.Some? {
        var started := p.jobs[i].Start(granted.value, now);
        RunningCountUpdate(p.jobs, i, started);
        if started.id in failures {
          RunningCountUpdate(p.jobs, i, started.Finish(Failure(failures[started.id], now)));
        }
      }
      ReadyRest(order, p, devices, failures, now);
      CapHolds(order[1..], StartOne(i, p, devices, failures, now), devices, cap, failures, now);
    }
  }

  /** The record of a job that has just been started: it runs from now on, and nothing else but its devices differs. */
  ghost predicate RecordsStart(before: Job, after: Job, now: nat) {
    after == Job(before.id, before.owner, before.spec, Running, after.devices, before.submittedAt, Some(now),
                 before.result)
  }

  /** The record of a job whose start has just failed. */
  ghost predicate RecordsFailedStart(before: Job, after: Job, now: nat, message: string) {
    after == Job(before.id, before.owner, before.spec, Failed, after.devices, before.submittedAt, Some(now),
                 Some(Outcome(Failed, 1, now, Some(message))))
  }

  /** What one listed job may have become. */
  ghost predicate StartedFrom(before: Job, after: Job, p: Plan, devices: seq<Device>, failures: map<nat, string>,
                              now: nat) {
    || after == before
    || (&& |after.devices| == before.spec.count && DistinctKeys(after.devices) && Keys(after.devices) !! p.reserved
        && (forall d | d in after.devices :: d in devices)
        && (forall d | d in after.devices && before.spec.deviceIds.None? :: d.id !in before.spec.excludeIds)
        && (exists reserved | p.reserved <= reserved ::
              Allocate(before.spec, devices, reserved) == Some(after.devices))
        && if before.id in failures then RecordsFailedStart(before, after, now, failures[before.id])
           else RecordsStart(before, after, now))
  }

  lemma StartOneIsSound(i: nat, p: Plan, devices: seq<Device>, failures: map<nat, string>, now: nat)
    requires i < |p.jobs| && p.jobs[i].state == Pending && ValidRequest(p.jobs[i].spec) && DistinctKeys(devices)
    ensures var q := StartOne(i, p, devices, failures, now);
            && StartedFrom(p.jobs[i], q.jobs[i], p, devices, failures, now) && p.reserved <= q.reserved
            && (q.jobs[i].state == Running ==> Keys(q.jobs[i].devices) <= q.reserved)
  {
    hide Allocate, DistinctKeys;
    if Allocate(p.jobs[i].spec, devices, p.reserved).Some? {
      AllocateGrants(p.jobs[i].spec, devices, p.reserved);
      assert p.reserved <= p.reserved;
    }
  }

  /** Every job the loop starts is given only devices of the inventory that were not reserved, as many as it
      asked for, and none that it excluded; no two of the started jobs share a key. */
  lemma {:induction false} GrantsAreSound(order: seq<nat>, p: Plan, devices: seq<Device>, cap: nat,
                                          failures: map<nat, string>, now: nat)
    requires Ready(order, p) && DistinctKeys(devices)
    ensures var q := Greedy(order, p, devices, cap, failures, now);
            && (forall i | i in order :: StartedFrom(p.jobs[i], q.jobs[i], p, devices, failures, now))
            && (forall i, j | i in order && j in order && i != j && q.jobs[i].state == Running
                && q.jobs[j].state == Running ::
                  Keys(q.jobs[i].devices) !! Keys(q.jobs[j].devices))
    decreases |order|
  {
    hide Allocate, DistinctKeys, StartOne, StartedFrom;
    var q := Greedy(order, p, devices, cap, failures, now);
    if order != [] && p.running < cap {
      var i0 := order[0];
      var p' := StartOne(i0, p, devices, failures, now);
      ReadyRest(order, p, devices, failures, now);
      StartOneIsSound(i0, p, devices, failures, now);
      GrantsAreSound(order[1..], p', devices, cap, failures, now);
      GrantsAreFresh(order[1..], p', devices, cap, failures, now);
      GreedyFrame(order[1..], p', devices, cap, failures, now);
      forall i | i in order ensures StartedFrom(p.jobs[i], q.jobs[i], p, devices, failures, now) {
        if i != i0 {
          assert i in order[1..] && p'.jobs[i] == p.jobs[i];
          StartedFromWeaker(p.jobs[i], q.jobs[i], p, p', devices, failures, now);
        }
      }
      forall i, j | i in order && j in order && i != j && q.jobs[i].state == Running && q.jobs[j].state == Running
        ensures Keys(q.jobs[i].devices) !! Keys(q.jobs[j].devices)
      {
        if i != i0 { assert i in order[1..]; GivenContains(order[1..], q, i); }
        if j != i0 { assert j in order[1..]; GivenContains(order[1..], q, j); }
      }
    } else {
      forall i | i in order ensures StartedFrom(p.jobs[i], q.jobs[i], p, devices, failures, now) {
        NothingStarted(p.jobs[i], p, devices, failures, now);
      }
    }
  }

  lemma NothingStarted(job: Job, p: Plan, devices: seq<Device>, failures: map<nat, string>, now: nat)
    ensures StartedFrom(job, job, p, devices, failures, now)
  {
  }

  lemma StartedFromWeaker(before: Job, after: Job, p: Plan, p': Plan, devices: seq<Device>, failures: map<nat, string>,
                          now: nat)
    requires p.reserved <= p'.reserved && StartedFrom(before, after, p', devices, failures, now)
    ensures StartedFrom(before, after, p, devices, failures, now)
  {
    hide Allocate;
    assert forall reserved | p'.reserved <= reserved :: p.reserved <= reserved;
  }

  lemma {:induction false} GivenContains(order: seq<nat>, q: Plan, i: nat)
    requires InRange(order, |q.jobs|)
    requires i in order && q.jobs[i].state == Running
    ensures Keys(q.jobs[i].devices) <= GivenTo(order, q)
  {
    if i != order[0] { GivenContains(order[1..], q, i); }
  }

  // ----- Running the loop one job at a time -----

  lemma {:induction false} GreedyConcat(a: seq<nat>, b: seq<nat>, p: Plan, devices: seq<Device>, cap: nat,
                                        failures: map<nat, string>, now: nat)
    requires InRange(a, |p.jobs|) && InRange(b, |p.jobs|)
    ensures Greedy(a + b, p, devices, cap, failures, now)
            == Greedy(b, Greedy(a, p, devices, cap, failures, now), devices, cap, failures, now)
    decreases |a|
  {
    if a == [] {
      assert a + b == b;
    } else if p.running < cap {
      assert (a + b)[0] == a[0] && (a + b)[1..] == a[1..] + b;
      GreedyConcat(a[1..], b, StartOne(a[0], p, devices, failures, now), devices, cap, failures, now);
    }
  }

  lemma {:induction false} GreedyIgnores(order: seq<nat>, p: Plan, devices: seq<Device>, cap: nat,
                                         failures: map<nat, string>, now: nat, id: nat, message: string)
    requires InRange(order, |p.jobs|) && forall k | 0 <= k < |order| :: p.jobs[order[k]].id != id
    ensures Greedy(order, p, devices, cap, failures[id := message], now)
              == Greedy(order, p, devices, cap, failures, now)
    decreases |order|
  {
    if order != [] && p.running < cap {
      GreedyIgnores(order[1..], StartOne(order[0], p, devices, failures, now), devices, cap, failures, now, id,
          message);
    }
  }

  /** One more job examined, after the first k of the order. */
  lemma GreedyNext(order: seq<nat>, k: nat, p: Plan, devices: seq<Device>, cap: nat, failures: map<nat, string>,
                   now: nat)
    requires InRange(order, |p.jobs|) && k < |order|
    requires Greedy(order[..k], p, devices, cap, failures, now).running < cap
    ensures Greedy(order[..k + 1], p, devices, cap, failures, now)
            == StartOne(order[k], Greedy(order[..k], p, devices, cap, failures, now), devices, failures, now)
  {
    var q := Greedy(order[..k], p, devices, cap, failures, now);
    GreedyConcat(order[..k], [order[k]], p, devices, cap, failures, now);
    assert order[..k] + [order[k]] == order[..k + 1];
    assert Greedy([], StartOne(order[k], q, devices, failures, now), devices, cap, failures, now)
           == StartOne(order[k], q, devices, failures, now);
    assert [order[k]][1..] == [];
  }

  /** Once the cap is reached the rest of the order is not examined. */
  lemma GreedyStops(order: seq<nat>, k: nat, p: Plan, devices: seq<Device>, cap: nat, failures: map<nat, string>,
                    now: nat)
    requires InRange(order, |p.jobs|) && k <= |order|
    requires k == |order| || Greedy(order[..k], p, devices, cap, failures, now).running >= cap
    ensures Greedy(order, p, devices, cap, failures, now) == Greedy(order[..k], p, devices, cap, failures, now)
  {
    GreedyConcat(order[..k], order[k..], p, devices, cap, failures, now);
    assert order[..k] + order[k..] == order;
  }

  lemma LoopLeavesAll(order: seq<nat>, k: nat, p: Plan, q: Plan, devices: seq<Device>, cap: nat,
                      failures: map<nat, string>, now: nat)
    requires LoopAt(order, k, p, q, devices, cap, failures, now)
    ensures InRange(order, |q.jobs|) && forall m | k <= m < |order| :: q.jobs[order[m]].state == Pending
  {
    assert Ready(order[..k], p);
    GreedyFrame(order[..k], p, devices, cap, failures, now);
    forall m | k <= m < |order| ensures q.jobs[order[m]].state == Pending {
      assert forall j | 0 <= j < k :: order[..k][j] == order[j] && order[j] != order[m];
      assert order[m] !in order[..k];
    }
  }

  /** The listed jobs that are running, as the IDs for which a worker has to be spawned. */
  function StartedIds(order: seq<nat>, jobs: seq<Job>): multiset<nat>
    requires InRange(order, |jobs|)
  {
    if order == [] then multiset{}
    else
      var last := jobs[order[|order| - 1]];
      StartedIds(order[..|order| - 1], jobs) + if last.state == Running then multiset{last.id} else multiset{}
  }

  lemma StartedIdsStart(order: seq<nat>, jobs: seq<Job>)
    ensures StartedIds(order[..0], jobs) == multiset{}
  {
    assert order[..0] == [];
  }

  lemma {:induction false} StartedIdsFrame(order: seq<nat>, jobs: seq<Job>, jobs': seq<Job>)
    requires InRange(order, |jobs|) && |jobs| == |jobs'| && forall k | 0 <= k < |order| ::
              jobs'[order[k]] == jobs[order[k]]
    ensures StartedIds(order, jobs') == StartedIds(order, jobs)
  {
    if order != [] { StartedIdsFrame(order[..|order| - 1], jobs, jobs'); }
  }

  lemma StartedIdsNext(order: seq<nat>, k: nat, jobs: seq<Job>, jobs': seq<Job>)
    requires NoDuplicates(order) && InRange(order, |jobs|) && |jobs| == |jobs'| && k < |order|
    requires forall i | 0 <= i < |jobs| && i != order[k] :: jobs'[i] == jobs[i]
    ensures StartedIds(order[..k + 1], jobs') ==
            StartedIds(order[..k], jobs)
            + if jobs'[order[k]].state == Running then multiset{jobs'[order[k]].id} else multiset{}
  {
    assert order[..k + 1][..k] == order[..k];
    StartedIdsFrame(order[..k], jobs, jobs');
  }

  lemma {:induction false} StartedIdsRest(order: seq<nat>, k: nat, jobs: seq<Job>)
    requires InRange(order, |jobs|) && k <= |order| && forall m | k <= m < |order| :: jobs[order[m]].state == Pending
    ensures StartedIds(order, jobs) == StartedIds(order[..k], jobs)
    decreases |order|
  {
    if k < |order| {
      StartedIdsRest(order[..|order| - 1], k, jobs);
      assert order[..|order| - 1][..k] == order[..k];
    } else {
      assert order[..k] == order;
    }
  }

  ghost predicate StartedNow(polled: seq<Job>, jobs: seq<Job>, id: nat) {
    |polled| == |jobs|
    && exists i | 0 <= i < |jobs| :: jobs[i].id == id && polled[i].state == Pending && jobs[i].state == Running
  }

  /** One worker was spawned for each job that was started and is running, and for no other. */
  ghost predicate OneSpawnEach(before: multiset<nat>, after: multiset<nat>, polled: seq<Job>, jobs: seq<Job>) {
    forall id: nat :: after[id] == before[id] + if StartedNow(polled, jobs, id) then 1 else 0
  }

  lemma {:induction false} StartedIdsCount(order: seq<nat>, jobs: seq<Job>, id: nat)
    requires NoDuplicates(order) && InRange(order, |jobs|) && DistinctIds(jobs)
    ensures StartedIds(order, jobs)[id] ==
            if exists k | 0 <= k < |order| :: jobs[order[k]].id == id && jobs[order[k]].state == Running then 1 else 0
  {
    if order != [] {
      var front, last := order[..|order| - 1], order[|order| - 1];
      StartedIdsCount(front, jobs, id);
      assert forall k | 0 <= k < |front| :: order[k] == front[k] && front[k] != last;
      if jobs[last].id == id {
        assert forall k | 0 <= k < |front| :: jobs[front[k]].id != id;
      }
    }
  }

  lemma StartedIdsAreSpawned(before: multiset<nat>, polled: seq<Job>, jobs: seq<Job>)
    requires |polled| == |jobs| && DistinctIds(jobs) && InRange(StartOrder(polled), |jobs|)
    ensures OneSpawnEach(before, before + StartedIds(StartOrder(polled), jobs), polled, jobs)
  {
    var order := StartOrder(polled);
    StartOrderIsExact(polled);
    forall id: nat
      ensures StartedIds(order, jobs)[id] == if StartedNow(polled, jobs, id) then 1 else 0
    {
      StartedIdsCount(order, jobs, id);
      if StartedNow(polled, jobs, id) {
        var i :| 0 <= i < |jobs| && jobs[i].id == id && polled[i].state == Pending && jobs[i].state == Running;
        var k :| 0 <= k < |order| && order[k] == i;
      }
      if k :| 0 <= k < |order| && jobs[order[k]].id == id && jobs[order[k]].state == Running {
        assert order[k] in order;
      }
    }
  }

  ghost predicate DistinctIds(jobs: seq<Job>) {
    forall i, j | 0 <= i < j < |jobs| :: jobs[i].id != jobs[j].id
  }

  /** Invariant of the start loop: after k jobs the plan is what Greedy makes of the first k, with the failures
      seen so far, all of jobs among those k. */
  ghost predicate LoopAt(order: seq<nat>, k: nat, p: Plan, q: Plan, devices: seq<Device>, cap: nat,
                         failures: map<nat, string>, now: nat) {
    && Ready(order, p) && DistinctIds(p.jobs) && k <= |order|
    && q == Greedy(order[..k], p, devices, cap, failures, now)
    && (forall id | id in failures :: exists m | 0 <= m < k :: p.jobs[order[m]].id == id)
  }

  lemma LoopStarts(order: seq<nat>, p: Plan, devices: seq<Device>, cap: nat, now: nat)
    requires Ready(order, p) && DistinctIds(p.jobs)
    ensures LoopAt(order, 0, p, p, devices, cap, map[], now)
  {
    assert order[..0] == [];
  }

  lemma LoopLeavesRest(order: seq<nat>, k: nat, p: Plan, q: Plan, devices: seq<Device>, cap: nat,
                       failures: map<nat, string>, now: nat)
    requires LoopAt(order, k, p, q, devices, cap, failures, now) && k < |order|
    ensures order[k] < |q.jobs| && q.jobs[order[k]] == p.jobs[order[k]] && q.jobs[order[k]].state == Pending
  {
    assert Ready(order[..k], p);
    GreedyFrame(order[..k], p, devices, cap, failures, now);
    assert forall m | 0 <= m < k :: order[..k][m] == order[m] && order[m] != order[k];
    assert order[k] !in order[..k];
  }

  /** Examining the next job, with or without a failure to record. */
  lemma LoopAdvances(order: seq<nat>, k: nat, p: Plan, q: Plan, devices: seq<Device>, cap: nat,
                     failures: map<nat, string>, now: nat, q': Plan, failure: Option<string>)
    requires LoopAt(order, k, p, q, devices, cap, failures, now) && k < |order| && q.running < cap
              && order[k] < |q.jobs|
    requires q' == StartOne(order[k], q, devices,
                            if failure.Some? then map[q.jobs[order[k]].id := failure.value] else map[], now)
    ensures LoopAt(order, k + 1, p, q', devices, cap,
                   if failure.Some? then failures[q.jobs[order[k]].id := failure.value] else failures, now)
  {
    var i := order[k];
    LoopLeavesRest(order, k, p, q, devices, cap, failures, now);
    var id := p.jobs[i].id;
    var failures' := if failure.Some? then failures[id := failure.value] else failures;
    forall m | 0 <= m < k ensures p.jobs[order[m]].id != id && order[..k][m] == order[m] {
      assert order[m] != order[k];
    }
    if failure.Some? { GreedyIgnores(order[..k], p, devices, cap, failures, now, id, failure.value); }
    GreedyNext(order, k, p, devices, cap, failures', now);
    assert id in failures' <==> failure.Some?;
    assert p.jobs[order[k]].id == id;
  }

  /** The start loop of a tick, from the polled jobs and what is withheld then, to the jobs and what is withheld
      after it. */
  ghost predicate StartLoop(polled: seq<Job>, withheld: set<Key>, jobs: seq<Job>, withheld': set<Key>,
                            devices: seq<Device>, cap: nat, failures: map<nat, string>, now: nat) {
    && Ready(StartOrder(polled), Plan(polled, withheld, RunningCount(polled)))
    && Plan(jobs, withheld', RunningCount(jobs))
       == Greedy(StartOrder(polled), Plan(polled, withheld, RunningCount(polled)), devices, cap, failures, now)
  }

  lemma LoopEnds(polled: seq<Job>, withheld: set<Key>, k: nat, q: Plan, devices: seq<Device>, cap: nat,
                 failures: map<nat, string>, now: nat)
    requires LoopAt(StartOrder(polled), k, Plan(polled, withheld, RunningCount(polled)), q, devices, cap, failures, now)
    requires k == |StartOrder(polled)| || q.running >= cap
    ensures StartLoop(polled, withheld, q.jobs, q.reserved, devices, cap, failures, now)
  {
    var p := Plan(polled, withheld, RunningCount(polled));
    GreedyStops(StartOrder(polled), k, p, devices, cap, failures, now);
    CapHolds(StartOrder(polled), p, devices, cap, failures, now);
  }

  lemma LoopSpawned(polled: seq<Job>, p: Plan, k: nat, q: Plan, devices: seq<Device>, cap: nat,
                    failures: map<nat, string>, now: nat, before: multiset<nat>)
    requires LoopAt(StartOrder(polled), k, p, q, devices, cap, failures, now) && p.jobs == polled
    ensures InRange(StartOrder(polled), |q.jobs|)
    ensures OneSpawnEach(before, before + StartedIds(StartOrder(polled)[..k], q.jobs), polled, q.jobs)
  {
    var order := StartOrder(polled);
    LoopLeavesAll(order, k, p, q, devices, cap, failures, now);
    StartedIdsRest(order, k, q.jobs);
    StartedIdsAreSpawned(before, polled, q.jobs);
  }

  /** LoopAt on the start order, with the workers spawned so far. */
  ghost predicate Looping(p: Plan, k: nat, q: Plan, devices: seq<Device>, cap: nat, failures: map<nat, string>,
                          now: nat, before: multiset<nat>, spawns: multiset<nat>) {
    && LoopAt(StartOrder(p.jobs), k, p, q, devices, cap, failures, now)
    && |q.jobs| == |p.jobs| && InRange(StartOrder(p.jobs), |q.jobs|)
    && spawns == before + StartedIds(StartOrder(p.jobs)[..k], q.jobs)
  }

  lemma LoopingStarts(p: Plan, devices: seq<Device>, cap: nat, now: nat, before: multiset<nat>)
    requires Ready(StartOrder(p.jobs), p) && DistinctIds(p.jobs)
    ensures Looping(p, 0, p, devices, cap, map[], now, before, before)
  {
    hide StartOrder;
    LoopStarts(StartOrder(p.jobs), p, devices, cap, now);
    StartedIdsStart(StartOrder(p.jobs), p.jobs);
  }

  lemma LoopingNext(p: Plan, k: nat, q: Plan, devices: seq<Device>, cap: nat, failures: map<nat, string>, now: nat,
                    before: multiset<nat>, spawns: multiset<nat>)
    requires Looping(p, k, q, devices, cap, failures, now, before, spawns) && k < |StartOrder(p.jobs)|
    ensures StartOrder(p.jobs)[k] < |q.jobs| && q.jobs[StartOrder(p.jobs)[k]].state == Pending
  {
    hide StartOrder;
    LoopLeavesRest(StartOrder(p.jobs), k, p, q, devices, cap, failures, now);
  }

  lemma LoopingAdvances(p: Plan, k: nat, q: Plan, devices: seq<Device>, cap: nat, failures: map<nat, string>, now: nat,
                        before: multiset<nat>, spawns: multiset<nat>, q': Plan, failure: Option<string>,
                        spawns': multiset<nat>)
    requires Looping(p, k, q, devices, cap, failures, now, before, spawns)
    requires k < |StartOrder(p.jobs)| && StartOrder(p.jobs)[k] < |q.jobs| && q.running < cap
    requires var job := q.jobs[StartOrder(p.jobs)[k]];
             q' == StartOne(StartOrder(p.jobs)[k], q, devices,
                            if failure.Some? then map[job.id := failure.value] else map[], now)
    requires var job := q'.jobs[StartOrder(p.jobs)[k]];
             spawns' == spawns + if job.state == Running then multiset{job.id} else multiset{}
    ensures var id := q.jobs[StartOrder(p.jobs)[k]].id;
            Looping(p, k + 1, q', devices, cap, if failure.Some? then failures[id := failure.value] else failures, now,
                    before, spawns')
  {
    hide StartOrder, LoopAt;
    LoopAtIsReady(StartOrder(p.jobs), k, p, q, devices, cap, failures, now);
    OrderIsSimple(StartOrder(p.jobs), p);
    LoopAdvances(StartOrder(p.jobs), k, p, q, devices, cap, failures, now, q', failure);
    StartedIdsNext(StartOrder(p.jobs), k, q.jobs, q'.jobs);
  }

  lemma LoopAtIsReady(order: seq<nat>, k: nat, p: Plan, q: Plan, devices: seq<Device>, cap: nat,
                      failures: map<nat, string>, now: nat)
    requires LoopAt(order, k, p, q, devices, cap, failures, now)
    ensures Ready(order, p)
  {
  }

  lemma LoopingEnds(p: Plan, k: nat, q: Plan, devices: seq<Device>, cap: nat, failures: map<nat, string>, now: nat,
                    before: multiset<nat>, spawns: multiset<nat>)
    requires Looping(p, k, q, devices, cap, failures, now, before, spawns) && p.running == RunningCount(p.jobs)
    requires k == |StartOrder(p.jobs)| || q.running >= cap
    ensures StartLoop(p.jobs, p.reserved, q.jobs, q.reserved, devices, cap, failures, now)
    ensures OneSpawnEach(before, spawns, p.jobs, q.jobs)
  {
    hide StartOrder, LoopAt, StartLoop, OneSpawnEach;
    LoopEnds(p.jobs, p.reserved, k, q, devices, cap, failures, now);
    LoopSpawned(p.jobs, p, k, q, devices, cap, failures, now, before);
  }

  /** Without pending jobs the start loop changes nothing. */
  lemma {:induction false} NothingToStart(jobs: seq<Job>, withheld: set<Key>, devices: seq<Device>, cap: nat,
                                          failures: map<nat, string>, now: nat)
    requires forall i | 0 <= i < |jobs| :: jobs[i].state != Pending
    ensures StartLoop(jobs, withheld, jobs, withheld, devices, cap, failures, now)
  {
    var p := Plan(jobs, withheld, RunningCount(jobs));
    StartOrderIsExact(jobs);
    OrderIsUnique(jobs, StartOrder(jobs), []);
    OrderIsReady(jobs, p);
    hide StartOrder, RunningCount, Ready;
    assert Greedy([], p, devices, cap, failures, now) == p;
  }

  /** After a tick: the cap is reached, or nothing that is left pending could be served. */
  ghost predicate WorkConserved(jobs: seq<Job>, withheld: set<Key>, devices: seq<Device>, cap: nat) {
    RunningCount(jobs) >= cap
    || forall i | 0 <= i < |jobs| && jobs[i].state == Pending :: Allocate(jobs[i].spec, devices, withheld).None?
  }

  lemma {:induction false} TickConservesWork(polled: seq<Job>, withheld: set<Key>, jobs: seq<Job>, withheld': set<Key>,
                                             devices: seq<Device>, cap: nat, failures: map<nat, string>, now: nat)
    requires StartLoop(polled, withheld, jobs, withheld', devices, cap, failures, now)
    ensures WorkConserved(jobs, withheld', devices, cap)
    ensures RunningCount(jobs) <= if RunningCount(polled) < cap then cap else RunningCount(polled)
    ensures RunningCount(jobs) <= cap <==> RunningCount(polled) <= cap
  {
    var order, p := StartOrder(polled), Plan(polled, withheld, RunningCount(polled));
    WorkConserving(order, p, devices, cap, failures, now);
    CapHolds(order, p, devices, cap, failures, now);
    GreedyFrame(order, p, devices, cap, failures, now);
    StartOrderIsExact(polled);
    assert forall i | 0 <= i < |jobs| && jobs[i].state == Pending :: i in order || jobs[i] == polled[i];
  }

  /** Every job a tick starts was pending and gets, from the devices neither held nor excluded nor busy, as many
      as it asked for and none that it excluded; started jobs share no device; all other jobs are as polled. */
  lemma {:induction false} TickGrantsFreeDevices(polled: seq<Job>, withheld: set<Key>, jobs: seq<Job>,
                                                 withheld': set<Key>, devices: seq<Device>, cap: nat,
                                                 failures: map<nat, string>, now: nat)
    requires StartLoop(polled, withheld, jobs, withheld', devices, cap, failures, now) && DistinctKeys(devices)
    ensures |jobs| == |polled|
    ensures forall i | 0 <= i < |jobs| && polled[i].state != Pending :: jobs[i] == polled[i]
    ensures forall i | 0 <= i < |jobs| && polled[i].state == Pending ::
              StartedFrom(polled[i], jobs[i], Plan(polled, withheld, RunningCount(polled)), devices, failures, now)
    ensures forall i, j | 0 <= i < j < |jobs| && polled[i].state == Pending && polled[j].state == Pending
                          && jobs[i].state == Running && jobs[j].state == Running ::
              Keys(jobs[i].devices) !! Keys(jobs[j].devices)
  {
    var order, p := StartOrder(polled), Plan(polled, withheld, RunningCount(polled));
    GrantsAreSound(order, p, devices, cap, failures, now);
    GreedyFrame(order, p, devices, cap, failures, now);
    StartOrderIsExact(polled);
  }

  /** Within a tick nobody is delayed by a smaller or later job: up to the point where the cap ends the loop, a job
      left pending could not have been served even with every device given to the jobs behind it handed back; the
      jobs from that point on are a suffix of the order and untouched. */
  lemma {:induction false} TickDelaysNobody(polled: seq<Job>, withheld: set<Key>, jobs: seq<Job>, withheld': set<Key>,
                                            devices: seq<Device>, cap: nat, failures: map<nat, string>, now: nat)
    returns (cut: nat)
    requires StartLoop(polled, withheld, jobs, withheld', devices, cap, failures, now) && DistinctKeys(devices)
    ensures var order, q := StartOrder(polled), Plan(jobs, withheld', RunningCount(jobs));
            && cut <= |order| && InRange(order, |jobs|) && (cut < |order| ==> RunningCount(jobs) >= cap)
            && (forall k | cut <= k < |order| :: jobs[order[k]] == polled[order[k]])
            && (forall k | 0 <= k < cut && jobs[order[k]].state == Pending ::
                  Allocate(jobs[order[k]].spec, devices, withheld' - GivenTo(order[k + 1..], q)).None?)
  {
    cut := NoDelay(StartOrder(polled), Plan(polled, withheld, RunningCount(polled)), devices, cap, failures, now);
  }

  lemma {:induction false} HeldKeysUpdate(jobs: seq<Job>, i: nat, job: Job)
    requires i < |jobs| && jobs[i].state != Running
    ensures HeldKeys(jobs[i := job]) == HeldKeys(jobs) + if job.state == Running then Keys(job.devices) else {}
  {
    if i > 0 {
      HeldKeysUpdate(jobs[1..], i - 1, job);
      assert jobs[i := job][1..] == jobs[1..][i - 1 := job];
    } else {
      assert jobs[i := job][1..] == jobs[1..];
    }
  }

  // ----- Progress and draining -----

  /** The loop never makes a job pending, and a job it leaves pending is untouched. */
  lemma {:induction false} PendingOnlyShrinks(order: seq<nat>, p: Plan, devices: seq<Device>, cap: nat,
                                              failures: map<nat, string>, now: nat)
    requires Ready(order, p)
    ensures var q := Greedy(order, p, devices, cap, failures, now);
            && PendingCount(q.jobs) <= PendingCount(p.jobs)
            && forall i | 0 <= i < |q.jobs| && q.jobs[i].state == Pending :: q.jobs[i] == p.jobs[i]
    decreases |order|
  {
    if order != [] && p.running < cap {
      StartOneShrinks(order[0], p, devices, failures, now);
      ReadyRest(order, p, devices, failures, now);
      PendingOnlyShrinks(order[1..], StartOne(order[0], p, devices, failures, now), devices, cap, failures, now);
    }
  }

  lemma StartOneShrinks(i: nat, p: Plan, devices: seq<Device>, failures: map<nat, string>, now: nat)
    requires i < |p.jobs| && p.jobs[i].state == Pending
    ensures var q := StartOne(i, p, devices, failures, now);
            PendingCount(q.jobs)
                == PendingCount(p.jobs) - if Allocate(p.jobs[i].spec, devices, p.reserved).Some? then 1 else 0
  {
    var granted := Allocate(p.jobs[i].spec, devices, p.reserved);
    if granted.Some? {
      var started := p.jobs[i].Start(granted.value, now);
      PendingCountUpdate(p.jobs, i, started);
      if started.id in failures {
        PendingCountUpdate(p.jobs, i, started.Finish(Failure(failures[started.id], now)));
      }
    }
  }

  lemma {:induction false} SomePending(jobs: seq<Job>)
    ensures PendingCount(jobs) > 0 <==> exists i | 0 <= i < |jobs| :: jobs[i].state == Pending
  {
    if jobs != [] {
      SomePending(jobs[1..]);
      if i :| 0 <= i < |jobs| && jobs[i].state == Pending && i > 0 {
        assert jobs[1..][i - 1].state == Pending;
      }
      if i :| 0 <= i < |jobs[1..]| && jobs[1..][i].state == Pending {
        assert jobs[i + 1].state == Pending;
      }
    }
  }

  /** Every pending job could be served by the devices outside `limit`; submit admits nothing else. */
  ghost predicate AllAdmitted(jobs: seq<Job>, devices: seq<Device>, limit: set<Key>) {
    forall i | 0 <= i < |jobs| && jobs[i].state == Pending ::
      ValidRequest(jobs[i].spec) && Allocate(jobs[i].spec, devices, limit).Some?
  }

  lemma AdmittedStays(before: seq<Job>, after: seq<Job>, devices: seq<Device>, limit: set<Key>)
    requires AllAdmitted(before, devices, limit) && forall job | job in after && job.state == Pending :: job in before
    ensures AllAdmitted(after, devices, limit)
  {
    forall i | 0 <= i < |after| && after[i].state == Pending
      ensures ValidRequest(after[i].spec) && Allocate(after[i].spec, devices, limit).Some?
    {
      assert after[i] in after;
      var j :| 0 <= j < |before| && before[j] == after[i];
    }
  }

  /** A job admitted under some exclusions stays admitted under any part of them. */
  lemma AdmittedWith(jobs: seq<Job>, job: Job, devices: seq<Device>, excluded: set<Key>, limit: set<Key>)
    requires AllAdmitted(jobs, devices, limit) && limit <= excluded
    requires ValidRequest(job.spec) && Allocate(job.spec, devices, excluded).Some?
    ensures AllAdmitted(jobs + [job], devices, limit)
  {
    AllocateAntitone(job.spec, devices, limit, excluded);
  }

  /** The start loop leaves pending only jobs that were. */
  lemma {:induction false} LoopKeepsPending(polled: seq<Job>, withheld: set<Key>, jobs: seq<Job>, withheld': set<Key>,
                                            devices: seq<Device>, cap: nat, failures: map<nat, string>, now: nat)
    requires StartLoop(polled, withheld, jobs, withheld', devices, cap, failures, now)
    ensures |jobs| == |polled| && PendingCount(jobs) <= PendingCount(polled)
    ensures forall i | 0 <= i < |jobs| && jobs[i].state == Pending :: jobs[i] == polled[i]
  {
    PendingOnlyShrinks(StartOrder(polled), Plan(polled, withheld, RunningCount(polled)), devices, cap, failures, now);
  }

  /** With nothing running and no more devices withheld than at admission, the loop moves a job on. */
  lemma ProgressWhenIdle(jobs: seq<Job>, devices: seq<Device>, limit: set<Key>, withheld: set<Key>, cap: nat,
                         failures: map<nat, string>, now: nat)
    requires AllAdmitted(jobs, devices, limit) && withheld <= limit && cap > 0 && PendingCount(jobs) > 0
    ensures PendingCount(Greedy(StartOrder(jobs), Plan(jobs, withheld, 0), devices, cap, failures, now).jobs)
            < PendingCount(jobs)
  {
    var order, p := StartOrder(jobs), Plan(jobs, withheld, 0);
    StartOrderIsExact(jobs);
    SomePending(jobs);
    var i :| 0 <= i < |jobs| && jobs[i].state == Pending;
    assert i in order;
    OrderIsReady(jobs, p);
    AllocateAntitone(jobs[order[0]].spec, devices, withheld, limit);
    StartOneShrinks(order[0], p, devices, failures, now);
    ReadyRest(order, p, devices, failures, now);
    PendingOnlyShrinks(order[1..], StartOne(order[0], p, devices, failures, now), devices, cap, failures, now);
  }

  lemma {:induction false} NothingHeld(jobs: seq<Job>)
    requires RunningCount(jobs) == 0
    ensures HeldKeys(jobs) == {}
  {
    if jobs != [] { NothingHeld(jobs[1..]); }
  }

  /** A tick makes progress: when every device that is not excluded is idle, nothing is running after the polls, and
      each pending job was admitted under exclusions that cover the present ones, some pending job moves on. */
  lemma {:induction false} TickMakesProgress(polled: seq<Job>, withheld: set<Key>, jobs: seq<Job>, withheld': set<Key>,
                                             devices: seq<Device>, status: map<Key, string>, excluded: set<Key>,
                                             limit: set<Key>, cap: nat, failures: map<nat, string>, now: nat)
    requires StartLoop(polled, withheld, jobs, withheld', devices, cap, failures, now)
    requires withheld == HeldKeys(polled) + excluded + NotIdle(devices, status)
    requires RunningCount(polled) == 0 && NotIdle(devices, status) <= excluded <= limit && cap > 0
    requires AllAdmitted(polled, devices, limit) && PendingCount(polled) > 0
    ensures PendingCount(jobs) < PendingCount(polled)
  {
    NothingHeld(polled);
    ProgressWhenIdle(polled, devices, limit, withheld, cap, failures, now);
  }

  lemma OrderIsReady(jobs: seq<Job>, p: Plan)
    requires p.jobs == jobs && forall i | 0 <= i < |jobs| && jobs[i].state == Pending :: ValidRequest(jobs[i].spec)
    ensures Ready(StartOrder(jobs), p)
  {
    StartOrderIsExact(jobs);
    var order := StartOrder(jobs);
    forall k | 0 <= k < |order| ensures p.jobs[order[k]].state == Pending && ValidRequest(p.jobs[order[k]].spec) {
      assert order[k] in order;
    }
  }

  /** What one round brings from outside: the devices withheld, the results of the running jobs, and the
      starts that fail. */
  datatype Round = Round(withheld: set<Key>, outcomes: map<nat, Outcome>, failures: map<nat, string>, now: nat)

  function FinishAll(jobs: seq<Job>, outcomes: map<nat, Outcome>, now: nat): (r: seq<Job>)
    ensures |r| == |jobs|
    ensures forall i | 0 <= i < |jobs| :: r[i] == Finished(jobs[i], outcomes, now)
  {
    if jobs == [] then [] else [Finished(jobs[0], outcomes, now)] + FinishAll(jobs[1..], outcomes, now)
  }

  function Finished(job: Job, outcomes: map<nat, Outcome>, now: nat): Job {
    if job.state != Running then job
    else if job.id in outcomes && outcomes[job.id].state.Terminal() then job.Finish(outcomes[job.id])
    else job.Finish(Failure(DISAPPEARED, now))
  }

  /** Every running job finishes, and then one tick runs on idle devices. */
  function PlayRound(jobs: seq<Job>, devices: seq<Device>, cap: nat, round: Round): seq<Job> {
    var settled := FinishAll(jobs, round.outcomes, round.now);
    Greedy(StartOrder(settled), Plan(settled, round.withheld, 0), devices, cap, round.failures, round.now).jobs
  }

  function PlayRounds(jobs: seq<Job>, devices: seq<Device>, cap: nat, rounds: seq<Round>): seq<Job>
    decreases |rounds|
  {
    if rounds == [] then jobs else PlayRounds(PlayRound(jobs, devices, cap, rounds[0]), devices, cap, rounds[1..])
  }

  lemma {:induction false} FinishAllKeepsPending(jobs: seq<Job>, outcomes: map<nat, Outcome>, now: nat)
    ensures PendingCount(FinishAll(jobs, outcomes, now)) == PendingCount(jobs)
  {
    if jobs != [] {
      FinishAllKeepsPending(jobs[1..], outcomes, now);
      assert FinishAll(jobs, outcomes, now)[1..] == FinishAll(jobs[1..], outcomes, now);
    }
  }

  /** The number of pending jobs is the measure: n admitted jobs drain in n finish-and-tick rounds, whatever
      the results are, whichever starts fail, and whatever part of the admission exclusions still applies. */
  lemma {:induction false} Drains(jobs: seq<Job>, devices: seq<Device>, limit: set<Key>, cap: nat, rounds: seq<Round>)
    requires AllAdmitted(jobs, devices, limit) && cap > 0
    requires forall i | 0 <= i < |rounds| :: rounds[i].withheld <= limit
    ensures PendingCount(PlayRounds(jobs, devices, cap, rounds)) <=
            if |rounds| >= PendingCount(jobs) then 0 else PendingCount(jobs) - |rounds|
    decreases |rounds|
  {
    if rounds != [] {
      var round := rounds[0];
      var settled := FinishAll(jobs, round.outcomes, round.now);
      var p := Plan(settled, round.withheld, 0);
      FinishAllKeepsPending(jobs, round.outcomes, round.now);
      assert AllAdmitted(settled, devices, limit);
      if PendingCount(jobs) > 0 {
        ProgressWhenIdle(settled, devices, limit, round.withheld, cap, round.failures, round.now);
      }
      OrderIsReady(settled, p);
      PendingOnlyShrinks(StartOrder(settled), p, devices, cap, round.failures, round.now);
      Drains(PlayRound(jobs, devices, cap, round), devices, limit, cap, rounds[1..]);
    }
  }
}
