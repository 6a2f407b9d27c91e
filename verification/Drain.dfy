/** The queue drains: what Planner proves of rounds holds of the ticks of a scheduler whose jobs submit accepted. */
module Draining {
  import opened Model
  import opened Allocator
  import opened Planner
  import opened Machine
  import opened Stores
  import opened Schedulers

  // ----- A tick that finds nothing running is a round -----

  /** The results in a list of jobs. */
  function Results(jobs: seq<Job>): map<nat, Outcome> {
    if jobs == [] then map[]
    else
      var last := jobs[|jobs| - 1];
      if last.result.Some? then Results(jobs[..|jobs| - 1])[last.id := last.result.value]
          else Results(jobs[..|jobs| - 1])
  }

  lemma {:induction false} ResultsAreThere(jobs: seq<Job>, i: nat)
    requires DistinctIds(jobs) && i < |jobs| && jobs[i].result.Some?
    ensures jobs[i].id in Results(jobs) && Results(jobs)[jobs[i].id] == jobs[i].result.value
    decreases |jobs|
  {
    var front, last := jobs[..|jobs| - 1], jobs[|jobs| - 1];
    if i < |front| {
      assert front[i] == jobs[i] && last.id != jobs[i].id;
      ResultsAreThere(front, i);
    }
  }

  lemma {:induction false} NoneIsRunning(jobs: seq<Job>, i: nat)
    requires RunningCount(jobs) == 0 && i < |jobs|
    ensures jobs[i].state != Running
  {
    if i > 0 { NoneIsRunning(jobs[1..], i - 1); }
  }

  /** The polls finish every job as the round says. */
  lemma PollsFinishAll(before: seq<Job>, polled: seq<Job>, now: nat)
    requires DistinctIds(before) && AllPolledFrom(before, polled) && RunningCount(polled) == 0
    ensures polled == FinishAll(before, Results(polled), now)
  {
    forall i | 0 <= i < |polled| ensures polled[i] == Finished(before[i], Results(polled), now) {
      NoneIsRunning(polled, i);
      assert PolledFrom(before[i], polled[i]);
      assert DistinctIds(polled) by { SameIds(before, polled); }
      if before[i].state == Running { ResultsAreThere(polled, i); }
    }
  }

  lemma SameIds(before: seq<Job>, polled: seq<Job>)
    requires DistinctIds(before) && AllPolledFrom(before, polled)
    ensures DistinctIds(polled)
  {
    assert forall i | 0 <= i < |polled| :: PolledFrom(before[i], polled[i]) ==> polled[i].id == before[i].id;
  }

  /** A tick that finds nothing running any more is one finish-and-tick round. */
  lemma QuietTickIsRound(before: seq<Job>, polled: seq<Job>, withheld: set<Key>, after: seq<Job>, withheld': set<Key>,
                         devices: seq<Device>, cap: nat, failures: map<nat, string>, now: nat)
    requires DistinctIds(before) && AllPolledFrom(before, polled) && RunningCount(polled) == 0
    requires StartLoop(polled, withheld, after, withheld', devices, cap, failures, now)
    ensures after == PlayRound(before, devices, cap, Round(withheld, Results(polled), failures, now))
  {
    PollsFinishAll(before, polled, now);
  }

  // ----- Ticks, and what happens between them -----

  /** The start loop of one tick and the polls before it. */
  ghost predicate TickBetween(before: seq<Job>, polled: seq<Job>, after: seq<Job>, devices: seq<Device>,
                              status: map<Key, string>, excluded: set<Key>, cap: nat) {
    exists withheld': set<Key>, failures: map<nat, string>, now: nat ::
      && AllPolledFrom(before, polled)
      && StartLoop(polled, HeldKeys(polled) + excluded + NotIdle(devices, status), after, withheld', devices, cap,
                   failures, now)
  }

  /** Nothing new is pending. */
  ghost predicate NoneAdded(before: seq<Job>, after: seq<Job>) {
    PendingCount(after) <= PendingCount(before)
    && forall job | job in after && job.state == Pending :: job in before
  }

  /** A tick, with the jobs after its polls and the statuses and exclusions it met; or something between the ticks. */
  datatype Moment =
    | Ticked(polled: seq<Job>, status: map<Key, string>, excluded: set<Key>)
    | Between

  ghost predicate Passes(before: seq<Job>, moment: Moment, after: seq<Job>, devices: seq<Device>, cap: nat) {
    match moment
    case Ticked(polled, status, excluded) => TickBetween(before, polled, after, devices, status, excluded, cap)
    case Between => NoneAdded(before, after)
  }

  /** lists are the stores before and after the moments. */
  ghost predicate Evolves(lists: seq<seq<Job>>, moments: seq<Moment>, devices: seq<Device>, cap: nat) {
    |lists| == |moments| + 1
    && forall k | 0 <= k < |moments| :: Passes(lists[k], moments[k], lists[k + 1], devices, cap)
  }

  /** A tick that finds nothing running, every enabled device idle, and nothing disabled beyond the limit. */
  predicate IsQuiet(moment: Moment, devices: seq<Device>, limit: set<Key>) {
    moment.Ticked? && RunningCount(moment.polled) == 0
    && NotIdle(devices, moment.status) <= moment.excluded <= limit
  }

  function QuietTicks(moments: seq<Moment>, devices: seq<Device>, limit: set<Key>): nat {
    if moments == [] then 0
    else
      QuietTicks(moments[..|moments| - 1], devices, limit)
      + if IsQuiet(moments[|moments| - 1], devices, limit) then 1 else 0
  }

  lemma TickDrains(before: seq<Job>, moment: Moment, after: seq<Job>, devices: seq<Device>, cap: nat, limit: set<Key>)
    requires moment.Ticked? && Passes(before, moment, after, devices, cap)
    requires AllAdmitted(before, devices, limit) && cap > 0
    ensures AllAdmitted(after, devices, limit) && PendingCount(after) <= PendingCount(before)
    ensures IsQuiet(moment, devices, limit) && PendingCount(before) > 0 ==> PendingCount(after) < PendingCount(before)
  {
    hide StartLoop, AllAdmitted, AllPolledFrom, HeldKeys;
    var polled, status, excluded := moment.polled, moment.status, moment.excluded;
    var withheld: set<Key> := HeldKeys(polled) + excluded + NotIdle(devices, status);
    var withheld': set<Key>, failures: map<nat, string>, now: nat :|
      AllPolledFrom(before, polled) && StartLoop(polled, withheld, after, withheld', devices, cap, failures, now);
    TickKeepsPending(before, polled, withheld, after, withheld', devices, cap, failures, now);
    LoopKeepsPending(polled, withheld, after, withheld', devices, cap, failures, now);
    PollsKeepPending(before, polled, devices, limit);
    if IsQuiet(moment, devices, limit) && PendingCount(before) > 0 {
      TickMakesProgress(polled, withheld, after, withheld', devices, status, excluded, limit, cap, failures, now);
    }
  }

  lemma PollsKeepPending(before: seq<Job>, polled: seq<Job>, devices: seq<Device>, limit: set<Key>)
    requires AllPolledFrom(before, polled) && AllAdmitted(before, devices, limit)
    ensures PendingCount(polled) == PendingCount(before) && AllAdmitted(polled, devices, limit)
  {
    hide Allocate;
    assert forall i | 0 <= i < |before| :: PolledFrom(before[i], polled[i]);
    assert forall i | 0 <= i < |before| :: (before[i].state == Pending <==> polled[i].state == Pending);
    SamePending(before, polled);
    forall i | 0 <= i < |polled| && polled[i].state == Pending
      ensures ValidRequest(polled[i].spec) && Allocate(polled[i].spec, devices, limit).Some?
    {
      assert polled[i] == before[i];
    }
  }

  lemma {:induction false} SamePending(a: seq<Job>, b: seq<Job>)
    requires |a| == |b| && forall i | 0 <= i < |a| :: (a[i].state == Pending <==> b[i].state == Pending)
    ensures PendingCount(a) == PendingCount(b)
  {
    if a != [] { SamePending(a[1..], b[1..]); }
  }

  /** The pending jobs of any store are gone after as many quiet ticks as there were jobs, as long as they were admitted
      under exclusions no smaller than the limit; whatever happens between the ticks, and whatever other ticks there
      are, brings none back. */
  lemma {:induction false} TicksDrain(lists: seq<seq<Job>>, moments: seq<Moment>, devices: seq<Device>, cap: nat,
                                      limit: set<Key>)
    requires Evolves(lists, moments, devices, cap) && AllAdmitted(lists[0], devices, limit) && cap > 0
    ensures AllAdmitted(lists[|moments|], devices, limit)
    ensures var quiet, before := QuietTicks(moments, devices, limit), PendingCount(lists[0]);
            PendingCount(lists[|moments|]) <= if quiet >= before then 0 else before - quiet
    decreases |moments|
  {
    hide TickBetween, AllAdmitted, IsQuiet;
    if moments != [] {
      var n := |moments| - 1;
      TicksDrain(lists[..n + 1], moments[..n], devices, cap, limit);
      assert Passes(lists[n], moments[n], lists[n + 1], devices, cap);
      if moments[n].Ticked? {
        TickDrains(lists[n], moments[n], lists[n + 1], devices, cap, limit);
      } else {
        AdmittedStays(lists[n], lists[n + 1], devices, limit);
        assert !IsQuiet(moments[n], devices, limit) by { BetweenIsNotQuiet(devices, limit); }
      }
    }
  }

  lemma BetweenIsNotQuiet(devices: seq<Device>, limit: set<Key>)
    ensures !IsQuiet(Between, devices, limit)
  {
  }

  // ----- The scheduler -----

  datatype Request = Request(spec: Submission, owner: nat, directoryExists: bool)

  /** Submits one request after the other. What is accepted is admitted under the exclusions in force. */
  method SubmitAll(s: Scheduler, requests: seq<Request>, now: nat) returns (accepted: nat)
    requires s.Valid() && s.phase == Idle && AllAdmitted(s.jobs, s.devices, s.excluded)
    modifies s, s.platform
    ensures s.Valid() && s.phase == Idle && old(s.platform.trace) <= s.platform.trace
    ensures s.devices == old(s.devices) && s.status == old(s.status) && s.excluded == old(s.excluded)
    ensures AllAdmitted(s.jobs, s.devices, s.excluded) && accepted <= |requests|
    ensures PendingCount(s.jobs) == old(PendingCount(s.jobs)) + accepted
  {
    hide AllAdmitted, Admissions.Admit, Index, Ordered, IsRun, After, PendingCount;
    accepted := 0;
    var i := 0;
    while i < |requests|
      invariant 0 <= i <= |requests| && s.Valid() && s.phase == Idle && old(s.platform.trace) <= s.platform.trace
      invariant s.devices == old(s.devices) && s.status == old(s.status) && s.excluded == old(s.excluded)
      invariant AllAdmitted(s.jobs, s.devices, s.excluded) && accepted <= i
      invariant PendingCount(s.jobs) == old(PendingCount(s.jobs)) + accepted
    {
      ghost var was := s.jobs;
      var r := s.Submit(requests[i].spec, requests[i].owner, requests[i].directoryExists, now);
      if r.Accepted? {
        PendingWith(was, r.job);
        accepted := accepted + 1;
      }
      i := i + 1;
    }
  }

  lemma {:induction false} PendingWith(jobs: seq<Job>, job: Job)
    ensures PendingCount(jobs + [job]) == PendingCount(jobs) + if job.state == Pending then 1 else 0
  {
    if jobs == [] {
      assert jobs + [job] == [job] && [job][1..] == [];
    } else {
      assert (jobs + [job])[1..] == jobs[1..] + [job];
      PendingWith(jobs[1..], job);
    }
  }

  /** What happens to a scheduler besides submissions. */
  datatype Event =
    | TickAt(now: nat)
    | Exclude(ids: seq<nat>, on: bool)
    | Monitor(status: map<Key, string>)
    | CancelJob(id: nat, now: nat)
    | CleanUp(now: nat)

  /** The exclusions in force after some events. */
  function ExclusionsAfter(excluded: set<Key>, devices: seq<Device>, events: seq<Event>): set<Key> {
    if events == [] then excluded
    else
      var front, last := ExclusionsAfter(excluded, devices, events[..|events| - 1]), events[|events| - 1];
      if last.Exclude? && KnownIds(devices, last.ids) then Excluding(front, devices, last.ids, last.on) else front
  }

  function StatusAfter(status: map<Key, string>, events: seq<Event>): map<Key, string> {
    if events == [] then status
    else if events[|events| - 1].Monitor? then events[|events| - 1].status
    else StatusAfter(status, events[..|events| - 1])
  }

  /** The moments are the ticks among the events, under the statuses and exclusions left by the events before them. */
  ghost predicate Matches(moments: seq<Moment>, events: seq<Event>, devices: seq<Device>, status: map<Key, string>,
                          excluded: set<Key>) {
    |moments| <= |events|
    && forall k | 0 <= k < |moments| ::
         if events[k].TickAt? then
           && moments[k].Ticked? && moments[k].status == StatusAfter(status, events[..k])
           && moments[k].excluded == ExclusionsAfter(excluded, devices, events[..k])
         else moments[k] == Between
  }

  /** One event after the other, until a tick fails. */
  method PlayAll(s: Scheduler, events: seq<Event>)
    returns (ok: bool, ghost lists: seq<seq<Job>>, ghost moments: seq<Moment>)
    requires s.Valid() && s.phase == Idle
    modifies s, s.platform
    ensures s.Valid() && old(s.platform.trace) <= s.platform.trace && s.devices == old(s.devices)
    ensures ok ==>
              && |moments| == |events| && Evolves(lists, moments, s.devices, s.maxRunning)
              && Matches(moments, events, s.devices, old(s.status), old(s.excluded))
              && lists[0] == old(s.jobs) && lists[|events|] == s.jobs
    ensures !ok ==> s.platform.Failed(old(s.platform.calls))
  {
    hide Index, Ordered, IsRun, After, Passes, KnownIds, PendingCount;
    lists, moments := [s.jobs], [];
    ok := true;
    var i := 0;
    while i < |events|
      invariant 0 <= i <= |events| && s.Valid() && s.phase == Idle && old(s.platform.trace) <= s.platform.trace
      invariant old(s.platform.calls) <= s.platform.calls && ok && |moments| == i && s.devices == old(s.devices)
      invariant s.status == StatusAfter(old(s.status), events[..i])
      invariant s.excluded == ExclusionsAfter(old(s.excluded), s.devices, events[..i])
      invariant Evolves(lists, moments, s.devices, s.maxRunning)
      invariant Matches(moments, events, s.devices, old(s.status), old(s.excluded))
      invariant lists[0] == old(s.jobs) && lists[i] == s.jobs
    {
      assert events[..i + 1][..i] == events[..i];
      ghost var moment: Moment;
      ok, moment := Play(s, events[i]);
      if !ok { return; }
      lists, moments := lists + [s.jobs], moments + [moment];
      i := i + 1;
    }
    assert events[..i] == events;
  }

  method Play(s: Scheduler, event: Event) returns (ok: bool, ghost moment: Moment)
    requires s.Valid() && s.phase == Idle
    modifies s, s.platform
    ensures s.Valid() && old(s.platform.trace) <= s.platform.trace && s.devices == old(s.devices)
    ensures old(s.platform.calls) <= s.platform.calls && (!ok ==> s.platform.Failed(old(s.platform.calls)))
    ensures ok ==> s.phase == Idle && Passes(old(s.jobs), moment, s.jobs, s.devices, s.maxRunning)
    ensures event.TickAt? ==> moment.Ticked? && moment.status == old(s.status) && moment.excluded == old(s.excluded)
    ensures !event.TickAt? ==> ok && moment == Between
    ensures s.status == if event.Monitor? then event.status else old(s.status)
    ensures s.excluded == if event.Exclude? && KnownIds(s.devices, event.ids)
                          then Excluding(old(s.excluded), s.devices, event.ids, event.on) else old(s.excluded)
  {
    hide Index, Ordered, IsRun, After, KnownIds, PendingCount, TickBetween, Retained, ExpiredOf;
    ok, moment := true, Between;
    match event
    case TickAt(now) =>
      ok, moment := PlayTick(s, now);
    case Exclude(ids, on) =>
      var known := s.SetDevicesExcluded(ids, on);
    case Monitor(status) =>
      s.Refresh(status);
    case CancelJob(id, now) =>
      var r := s.Cancel(id, now);
      CancelAddsNone(old(s.jobs), id, now, s.jobs);
    case CleanUp(now) =>
      RetainedAddsNone(s.jobs, ExpiredOf(s.jobs, now));
      var cleaned := s.Cleanup(now);
  }

  method PlayTick(s: Scheduler, now: nat) returns (ok: bool, ghost moment: Moment)
    requires s.Valid() && s.phase == Idle
    modifies s`jobs, s`phase, s`children, s.platform
    ensures s.Valid() && old(s.platform.trace) <= s.platform.trace
    ensures old(s.platform.calls) <= s.platform.calls && (!ok ==> s.platform.Failed(old(s.platform.calls)))
    ensures moment.Ticked? && moment.status == s.status && moment.excluded == s.excluded
    ensures ok ==> s.phase == Idle && Passes(old(s.jobs), moment, s.jobs, s.devices, s.maxRunning)
  {
    hide AllPolledFrom, StartLoop, HeldKeys, DistinctKeys, WorkConserved, AllPolled, SavedOrSame, OneSpawnEach,
         AllAdmitted, RunningCount, Index, Ordered, IsRun, After, TickBetween;
    ghost var before := s.jobs;
    ghost var polled: seq<Job>, withheld: set<Key>, failures: map<nat, string>;
    ok, polled, withheld, failures := s.Tick(now);
    moment := Ticked(polled, s.status, s.excluded);
    if ok {
      IsTick(before, polled, withheld, s.jobs, s.Withheld(), s.devices, s.status, s.excluded, s.maxRunning, failures,
             now);
    }
  }

  lemma CancelAddsNone(before: seq<Job>, id: nat, now: nat, after: seq<Job>)
    requires || after == before
             || (Find(before, id).Some? && before[Find(before, id).value].state == Pending
                 && after == before[Find(before, id).value := before[Find(before, id).value].Finish(Revocation(now))])
    ensures NoneAdded(before, after)
  {
    if after != before {
      var i := Find(before, id).value;
      PendingCountUpdate(before, i, before[i].Finish(Revocation(now)));
      forall job | job in after && job.state == Pending ensures job in before {
        var k :| 0 <= k < |after| && after[k] == job;
        assert k != i && before[k] == job;
      }
    }
  }

  lemma RetainedAddsNone(jobs: seq<Job>, expired: set<nat>)
    requires Ordered(jobs)
    ensures NoneAdded(jobs, Retained(jobs, expired))
  {
    RetainedIsOrdered(jobs, expired);
    FewerAreRetained(jobs, expired);
  }

  lemma {:induction false} FewerAreRetained(jobs: seq<Job>, expired: set<nat>)
    ensures PendingCount(Retained(jobs, expired)) <= PendingCount(jobs)
  {
    if jobs != [] {
      var front, last := jobs[..|jobs| - 1], jobs[|jobs| - 1];
      FewerAreRetained(front, expired);
      PendingWith(front, last);
      assert front + [last] == jobs;
      PendingWith(Retained(front, expired), last);
    }
  }

  lemma IsTick(before: seq<Job>, polled: seq<Job>, withheld: set<Key>, after: seq<Job>, withheld': set<Key>,
               devices: seq<Device>, status: map<Key, string>, excluded: set<Key>, cap: nat, failures: map<nat, string>,
               now: nat)
    requires AllPolledFrom(before, polled) && withheld == HeldKeys(polled) + excluded + NotIdle(devices, status)
    requires StartLoop(polled, withheld, after, withheld', devices, cap, failures, now)
    ensures TickBetween(before, polled, after, devices, status, excluded, cap)
  {
  }

  /** A scheduler with an empty queue accepts requests; then it ticks, while devices are excluded and included, are
      busy and idle again, and jobs are cancelled and cleaned up. The accepted jobs have left Pending once as many
      ticks have found nothing running, the enabled devices idle, and nothing disabled that was enabled at admission,
      whatever their results are and whichever starts fail. */
  method SubmitAndDrain(s: Scheduler, requests: seq<Request>, now: nat, events: seq<Event>)
    returns (accepted: nat, ok: bool, ghost lists: seq<seq<Job>>, ghost moments: seq<Moment>)
    requires s.Valid() && s.phase == Idle && PendingCount(s.jobs) == 0
    modifies s, s.platform
    ensures s.Valid() && accepted <= |requests| && s.devices == old(s.devices)
    ensures ok ==>
              && |moments| == |events| && Evolves(lists, moments, s.devices, s.maxRunning)
              && Matches(moments, events, s.devices, old(s.status), old(s.excluded))
              && PendingCount(lists[0]) == accepted && lists[|events|] == s.jobs
    ensures ok ==>
              var quiet := QuietTicks(moments, s.devices, old(s.excluded));
              PendingCount(s.jobs) <= if quiet >= accepted then 0 else accepted - quiet
  {
    NothingToAdmit(s.jobs, s.devices, s.excluded);
    hide AllAdmitted, Passes, Index, Ordered, IsRun, After, PendingCount, QuietTicks, Matches;
    ghost var limit := s.excluded;
    accepted := SubmitAll(s, requests, now);
    ok, lists, moments := PlayAll(s, events);
    if ok { TicksDrain(lists, moments, s.devices, s.maxRunning, limit); }
  }

  lemma NothingToAdmit(jobs: seq<Job>, devices: seq<Device>, limit: set<Key>)
    requires PendingCount(jobs) == 0
    ensures AllAdmitted(jobs, devices, limit)
  {
    SomePending(jobs);
  }
}
