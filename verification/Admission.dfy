/** The checks of Scheduler::submit (src/scheduler.rs:136-185), and exactly which requests pass them. */
module Admissions {
  import opened Model
  import opened Allocator

  datatype Refusal =
    | EmptyCommand | NoDirectory | ZeroTimeLimit | DuplicateExclusions
    | NoIds | CountMismatch | DuplicateIds | ExclusionsWithIds
    | UnknownIds | AmbiguousIds | DisabledIds | NotEnoughDevices

  datatype Admission = Admitted(spec: Submission) | Refused(reason: Refusal)

  predicate Disabled(devices: seq<Device>, kind: Kind, ids: seq<nat>, excluded: set<Key>) {
    exists d | d in devices :: d.kind == kind && d.id in ids && d.Key() in excluded
  }

  /** The checks on a list of exact IDs; on success the vendor is settled. */
  function AdmitExact(spec: Submission, ids: seq<nat>, devices: seq<Device>, excluded: set<Key>): Admission
    requires spec.deviceIds == Some(ids)
  {
    if ids == [] then Refused(NoIds)
    else if spec.count != |ids| then Refused(CountMismatch)
    else if !NoDuplicates(ids) then Refused(DuplicateIds)
    else if spec.excludeIds != [] then Refused(ExclusionsWithIds)
    else
      var kinds := MatchingKinds(spec, devices);
      if kinds == [] then Refused(UnknownIds)
      else if |kinds| != 1 then Refused(AmbiguousIds)
      else if Disabled(devices, kinds[0], ids, excluded) then Refused(DisabledIds)
      else Admitted(spec.(kind := Some(kinds[0])))
  }

  function Admit(spec: Submission, directoryExists: bool, devices: seq<Device>, excluded: set<Key>): Admission {
    if spec.script.None? && spec.command == [] then Refused(EmptyCommand)
    else if !directoryExists then Refused(NoDirectory)
    else if spec.timeLimit == Some(0) then Refused(ZeroTimeLimit)
    else if !NoDuplicates(spec.excludeIds) then Refused(DuplicateExclusions)
    else
      var settled := if spec.deviceIds.Some? then AdmitExact(spec, spec.deviceIds.value, devices, excluded)
          else Admitted(spec);
      if settled.Refused? then settled
      else if Allocate(settled.spec, devices, excluded).None? then Refused(NotEnoughDevices)
      else settled
  }

  lemma {:induction false} SelectExactSucceeds(ids: seq<nat>, devices: seq<Device>, kind: Kind, reserved: set<Key>)
    requires Carries(devices, kind, ids)
    requires forall d | d in devices && d.kind == kind && d.id in ids :: d.Key() !in reserved
    ensures SelectExact(ids, devices, kind, reserved).Some?
  {
    if ids != [] {
      assert ids[0] in ids;
      FindDeviceMeaning(devices, kind, ids[0]);
      SelectExactSucceeds(ids[1..], devices, kind, reserved);
    }
  }

  lemma OnlyElement(m: seq<Kind>, kind: Kind)
    requires NoDuplicates(m) && kind in m && forall k | k in m :: k == kind
    ensures m == [kind]
  {
    var first, last := m[0], m[|m| - 1];
    assert first in m && last in m;
  }

  /** Settling the vendor leaves it as the only one that matches. */
  lemma SettledKindMatches(spec: Submission, devices: seq<Device>)
    requires |MatchingKinds(spec, devices)| == 1
    ensures var kind := MatchingKinds(spec, devices)[0];
            && Matches(spec, devices, kind)
            && MatchingKinds(spec.(kind := Some(kind)), devices) == [kind]
  {
    var kind := MatchingKinds(spec, devices)[0];
    var spec' := spec.(kind := Some(kind));
    MatchingFromMeaning(PRIORITY, spec, devices);
    MatchingFromMeaning(PRIORITY, spec', devices);
    var m := MatchingKinds(spec', devices);
    assert kind in MatchingKinds(spec, devices);
    assert kind in m && forall k | k in m :: k == kind;
    OnlyElement(m, kind);
  }

  /** The last check can only refuse automatic requests: an exact one that got so far is always served. */
  lemma ExactRequestsAreServed(spec: Submission, ids: seq<nat>, devices: seq<Device>, excluded: set<Key>)
    requires spec.deviceIds == Some(ids) && AdmitExact(spec, ids, devices, excluded).Admitted?
    ensures Allocate(AdmitExact(spec, ids, devices, excluded).spec, devices, excluded).Some?
  {
    SettledKindMatches(spec, devices);
    SelectExactSucceeds(ids, devices, MatchingKinds(spec, devices)[0], excluded);
  }

  /** The one vendor that is allowed and has all the IDs. */
  ghost predicate OnlyHolder(spec: Submission, ids: seq<nat>, devices: seq<Device>, kind: Kind) {
    HasAll(spec, devices, ids, kind) && forall k | HasAll(spec, devices, ids, k) :: k == kind
  }

  /** One of the vendor's devices with these IDs is disabled. */
  ghost predicate SomeDisabled(ids: seq<nat>, devices: seq<Device>, kind: Kind, excluded: set<Key>) {
    exists p, j :: 0 <= p < |devices| && 0 <= j < |ids| && devices[p].kind == kind && devices[p].id == ids[j]
                   && KeyOf(kind, devices[p].visible) in excluded
  }

  lemma DisabledMeaning(ids: seq<nat>, devices: seq<Device>, kind: Kind, excluded: set<Key>)
    ensures Disabled(devices, kind, ids, excluded) <==> SomeDisabled(ids, devices, kind, excluded)
  {
    if Disabled(devices, kind, ids, excluded) {
      var d :| d in devices && d.kind == kind && d.id in ids && d.Key() in excluded;
      var p :| 0 <= p < |devices| && devices[p] == d;
      var j :| 0 <= j < |ids| && ids[j] == d.id;
    }
    if SomeDisabled(ids, devices, kind, excluded) {
      var p, j :| 0 <= p < |devices| && 0 <= j < |ids| && devices[p].kind == kind && devices[p].id == ids[j]
                  && KeyOf(kind, devices[p].visible) in excluded;
      assert devices[p] in devices && devices[p].Key() in excluded;
    }
  }

  lemma HolderMeaning(spec: Submission, ids: seq<nat>, devices: seq<Device>, kind: Kind)
    requires spec.deviceIds == Some(ids)
    ensures kind in MatchingKinds(spec, devices) <==> HasAll(spec, devices, ids, kind)
    ensures OnlyHolder(spec, ids, devices, kind) <==> MatchingKinds(spec, devices) == [kind]
  {
    MatchingFromMeaning(PRIORITY, spec, devices);
    var m := MatchingKinds(spec, devices);
    forall k ensures k in m <==> HasAll(spec, devices, ids, k) {
      PriorityIsTotal(k);
      HasAllMeaning(spec, devices, k);
    }
    hide HasAll, MatchingKinds;
    if OnlyHolder(spec, ids, devices, kind) { OnlyElement(m, kind); }
    if m == [kind] { assert forall k :: k in m <==> k == kind; }
  }

  // ----- The checks in terms of the request and the inventory alone -----

  ghost predicate Repeats(ids: seq<nat>) {
    exists i, j | 0 <= i < j < |ids| :: ids[i] == ids[j]
  }

  /** What is wrong with a list of exact IDs. */
  ghost function WhatIsWrongWithIds(spec: Submission, ids: seq<nat>, devices: seq<Device>, excluded: set<Key>)
    : Option<Refusal>
  {
    if |ids| == 0 then Some(NoIds)
    else if spec.count != |ids| then Some(CountMismatch)
    else if Repeats(ids) then Some(DuplicateIds)
    else if |spec.excludeIds| > 0 then Some(ExclusionsWithIds)
    else if !exists kind :: HasAll(spec, devices, ids, kind) then Some(UnknownIds)
    else if !exists kind :: OnlyHolder(spec, ids, devices, kind) then Some(AmbiguousIds)
    else if exists kind :: HasAll(spec, devices, ids, kind) && SomeDisabled(ids, devices, kind, excluded) then
      Some(DisabledIds)
    else None
  }

  /** What is wrong with a request; the first fault counts. */
  ghost function WhatIsWrong(spec: Submission, directoryExists: bool, devices: seq<Device>, excluded: set<Key>)
    : Option<Refusal>
  {
    if spec.script == None && |spec.command| == 0 then Some(EmptyCommand)
    else if !directoryExists then Some(NoDirectory)
    else if spec.timeLimit == Some(0) then Some(ZeroTimeLimit)
    else if Repeats(spec.excludeIds) then Some(DuplicateExclusions)
    else
      match spec.deviceIds
      case Some(ids) => WhatIsWrongWithIds(spec, ids, devices, excluded)
      case None =>
        if spec.count == 0 || exists kind :: Offers(spec, devices, excluded, kind) then None else Some(NotEnoughDevices)
  }

  lemma VendorsMeaning(spec: Submission, ids: seq<nat>, devices: seq<Device>, excluded: set<Key>)
    requires spec.deviceIds == Some(ids)
    ensures var m := MatchingKinds(spec, devices);
            && ((exists kind :: HasAll(spec, devices, ids, kind)) <==> m != [])
            && ((exists kind :: OnlyHolder(spec, ids, devices, kind)) <==> |m| == 1)
            && (|m| == 1 ==> OnlyHolder(spec, ids, devices, m[0]))
            && (|m| == 1 ==> ((exists kind :: HasAll(spec, devices, ids, kind)
                                               && SomeDisabled(ids, devices, kind, excluded))
                              <==> Disabled(devices, m[0], ids, excluded)))
  {
    var m := MatchingKinds(spec, devices);
    forall kind
      ensures kind in m <==> HasAll(spec, devices, ids, kind)
      ensures OnlyHolder(spec, ids, devices, kind) <==> m == [kind]
      ensures Disabled(devices, kind, ids, excluded) <==> SomeDisabled(ids, devices, kind, excluded)
    {
      HolderMeaning(spec, ids, devices, kind);
      DisabledMeaning(ids, devices, kind, excluded);
    }
    hide HasAll, MatchingKinds, Disabled, SomeDisabled, OnlyHolder;
    if m != [] { assert m[0] in m; }
    if |m| == 1 { assert m == [m[0]]; }
  }

  lemma AdmitExactMeaning(spec: Submission, ids: seq<nat>, devices: seq<Device>, excluded: set<Key>)
    requires spec.deviceIds == Some(ids)
    ensures match AdmitExact(spec, ids, devices, excluded)
            case Refused(reason) => WhatIsWrongWithIds(spec, ids, devices, excluded) == Some(reason)
            case Admitted(admitted) =>
              && WhatIsWrongWithIds(spec, ids, devices, excluded).None?
              && admitted.kind.Some? && OnlyHolder(spec, ids, devices, admitted.kind.value)
              && admitted == spec.(kind := admitted.kind)
  {
    VendorsMeaning(spec, ids, devices, excluded);
    assert NoDuplicates(ids) <==> !Repeats(ids);
    hide HasAll, MatchingKinds, Disabled, SomeDisabled, OnlyHolder, NoDuplicates, Repeats;
  }

  /** Submit accepts a request exactly when nothing is wrong with it, and refuses it for the first fault: nothing to
      run, no directory, a limit of zero, a repeated exclusion; with exact IDs, none, another number than counted,
      repeated ones, exclusions beside them, no vendor that has them all, several that have, or a disabled device
      among them; and without, no allowed vendor that has enough enabled devices. */
  lemma AdmitsExactly(spec: Submission, directoryExists: bool, devices: seq<Device>, excluded: set<Key>)
    ensures match Admit(spec, directoryExists, devices, excluded)
            case Refused(reason) => WhatIsWrong(spec, directoryExists, devices, excluded) == Some(reason)
            case Admitted(_) => WhatIsWrong(spec, directoryExists, devices, excluded).None?
  {
    match spec.deviceIds
    case None =>
      if spec.count > 0 {
        AutomaticVendor(spec, devices, excluded);
        hide Allocate, Offers;
      }
    case Some(ids) =>
      AdmitExactMeaning(spec, ids, devices, excluded);
      if AdmitExact(spec, ids, devices, excluded).Admitted? { ExactRequestsAreServed(spec, ids, devices, excluded); }
      hide AdmitExact, WhatIsWrongWithIds, Allocate;
  }

  /** What is admitted differs from the request at most by the vendor, which for exact IDs is settled to the only one
      that has them all, is valid, and could be served at once by the enabled devices. */
  lemma AdmittedIsServable(spec: Submission, directoryExists: bool, devices: seq<Device>, excluded: set<Key>)
    requires Admit(spec, directoryExists, devices, excluded).Admitted?
    ensures var admitted := Admit(spec, directoryExists, devices, excluded).spec;
            && ValidRequest(admitted) && Allocate(admitted, devices, excluded).Some?
            && admitted.(kind := spec.kind) == spec
            && (spec.deviceIds.None? ==> admitted == spec)
            && (spec.deviceIds.Some? ==>
                  admitted.kind.Some? && OnlyHolder(spec, spec.deviceIds.value, devices, admitted.kind.value))
            && (spec.kind.Some? ==> admitted == spec)
  {
    if spec.deviceIds.Some? {
      SettledKindMatches(spec, devices);
      AdmitExactMeaning(spec, spec.deviceIds.value, devices, excluded);
    }
  }
}
