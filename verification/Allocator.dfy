/** Device allocation: allocate and matching_kinds of src/scheduler.rs. */
module Allocator {
  import opened Model

  predicate Eligible(d: Device, spec: Submission, reserved: set<Key>, kind: Kind) {
    d.kind == kind && d.Key() !in reserved && d.id !in spec.excludeIds
  }

  /** The devices of one vendor that an automatic request may use, in inventory order. */
  function Pool(spec: Submission, devices: seq<Device>, reserved: set<Key>, kind: Kind): seq<Device> {
    if devices == [] then []
    else if Eligible(devices[0], spec, reserved, kind) then [devices[0]] + Pool(spec, devices[1..], reserved, kind)
    else Pool(spec, devices[1..], reserved, kind)
  }

  predicate Admits(spec: Submission, kind: Kind) {
    spec.kind.None? || spec.kind.value == kind
  }

  function FirstFit(kinds: seq<Kind>, spec: Submission, devices: seq<Device>, reserved: set<Key>)
    : Option<seq<Device>>
  {
    if kinds == [] then None
    else if Admits(spec, kinds[0]) && |Pool(spec, devices, reserved, kinds[0])| >= spec.count then
      Some(Pool(spec, devices, reserved, kinds[0])[..spec.count])
    else FirstFit(kinds[1..], spec, devices, reserved)
  }

  /** The first device carrying this vendor and ID. */
  function FindDevice(devices: seq<Device>, kind: Kind, id: nat): Option<Device> {
    if devices == [] then None
    else if devices[0].kind == kind && devices[0].id == id then Some(devices[0])
    else FindDevice(devices[1..], kind, id)
  }

  predicate Carries(devices: seq<Device>, kind: Kind, ids: seq<nat>) {
    forall id | id in ids :: FindDevice(devices, kind, id).Some?
  }

  /** The vendor is not ruled out and has every requested ID. */
  predicate Matches(spec: Submission, devices: seq<Device>, kind: Kind) {
    Admits(spec, kind) && spec.deviceIds.Some? && Carries(devices, kind, spec.deviceIds.value)
  }

  function MatchingFrom(kinds: seq<Kind>, spec: Submission, devices: seq<Device>): seq<Kind> {
    if kinds == [] then []
    else if Matches(spec, devices, kinds[0]) then [kinds[0]] + MatchingFrom(kinds[1..], spec, devices)
    else MatchingFrom(kinds[1..], spec, devices)
  }

  function MatchingKinds(spec: Submission, devices: seq<Device>): seq<Kind> {
    MatchingFrom(PRIORITY, spec, devices)
  }

  function SelectExact(ids: seq<nat>, devices: seq<Device>, kind: Kind, reserved: set<Key>): Option<seq<Device>> {
    if ids == [] then Some([])
    else
      var found := FindDevice(devices, kind, ids[0]);
      if found.None? || found.value.Key() in reserved then None
      else
        var rest := SelectExact(ids[1..], devices, kind, reserved);
        if rest.None? then None else Some([found.value] + rest.value)
  }

  function Allocate(spec: Submission, devices: seq<Device>, reserved: set<Key>): Option<seq<Device>> {
    match spec.deviceIds
    case Some(ids) =>
      var kinds := MatchingKinds(spec, devices);
      if kinds == [] then None else SelectExact(ids, devices, kinds[0], reserved)
    case None =>
      if spec.count == 0 then Some([]) else FirstFit(PRIORITY, spec, devices, reserved)
  }

  // ----- What the pieces mean -----

  lemma {:induction false} FindDeviceMeaning(devices: seq<Device>, kind: Kind, id: nat)
    ensures FindDevice(devices, kind, id).None? <==> forall d | d in devices :: d.kind != kind || d.id != id
    ensures var found := FindDevice(devices, kind, id);
            found.Some? ==> exists i | 0 <= i < |devices| ::
              && devices[i] == found.value && found.value.kind == kind && found.value.id == id
              && forall j | 0 <= j < i :: devices[j].kind != kind || devices[j].id != id
  {
    if devices != [] {
      FindDeviceMeaning(devices[1..], kind, id);
      if !(devices[0].kind == kind && devices[0].id == id) && FindDevice(devices, kind, id).Some? {
        var i :| 0 <= i < |devices[1..]| && devices[1..][i] == FindDevice(devices, kind, id).value
          && forall j | 0 <= j < i :: devices[1..][j].kind != kind || devices[1..][j].id != id;
        assert devices[i + 1] == FindDevice(devices, kind, id).value;
        forall j | 0 <= j < i + 1 ensures devices[j].kind != kind || devices[j].id != id {
          if j > 0 { assert devices[1..][j - 1] == devices[j]; }
        }
      }
    }
  }

  lemma {:induction false} MatchingFromMeaning(kinds: seq<Kind>, spec: Submission, devices: seq<Device>)
    ensures forall k :: k in MatchingFrom(kinds, spec, devices) <==> k in kinds && Matches(spec, devices, k)
    ensures NoDuplicates(kinds) ==> NoDuplicates(MatchingFrom(kinds, spec, devices))
    ensures var m := MatchingFrom(kinds, spec, devices);
            m != [] ==> FirstMatch(kinds, spec, devices, m[0])
  {
    if kinds != [] {
      MatchingFromMeaning(kinds[1..], spec, devices);
      var m, rest := MatchingFrom(kinds, spec, devices), MatchingFrom(kinds[1..], spec, devices);
      assert forall k :: k in kinds <==> k == kinds[0] || k in kinds[1..];
      if Matches(spec, devices, kinds[0]) {
        assert kinds[0] == m[0];
      } else if m != [] {
        var i :| 0 <= i < |kinds[1..]| && kinds[1..][i] == m[0] && Matches(spec, devices, kinds[1..][i])
          && forall j | 0 <= j < i :: !Matches(spec, devices, kinds[1..][j]);
        assert kinds[i + 1] == m[0];
        forall j | 0 <= j < i + 1 ensures !Matches(spec, devices, kinds[j]) {
          if j > 0 { assert kinds[1..][j - 1] == kinds[j]; }
        }
      }
    }
  }

  /** k is the first of the kinds, in order, that matches. */
  ghost predicate FirstMatch(kinds: seq<Kind>, spec: Submission, devices: seq<Device>, k: Kind) {
    exists i | 0 <= i < |kinds| :: (
      && kinds[i] == k && Matches(spec, devices, kinds[i])
      && forall j | 0 <= j < i :: !Matches(spec, devices, kinds[j]))
  }

  // ----- Automatic requests: an independent description of the result -----

  /** ds are the first |ds| eligible devices of the inventory, in inventory order: the witness positions
      increase, and no eligible device before the last position is skipped. */
  ghost predicate FirstEligible(spec: Submission, devices: seq<Device>, reserved: set<Key>, kind: Kind,
                                ds: seq<Device>) {
    exists positions: seq<nat> :: AtPositions(spec, devices, reserved, kind, ds, positions)
  }

  ghost predicate AtPositions(spec: Submission, devices: seq<Device>, reserved: set<Key>, kind: Kind,
                              ds: seq<Device>, positions: seq<nat>) {
    && |positions| == |ds|
    && (forall i | 0 <= i < |ds| :: positions[i] < |devices| && ds[i] == devices[positions[i]]
                                    && Eligible(ds[i], spec, reserved, kind))
    && (forall i, j | 0 <= i < j < |ds| :: positions[i] < positions[j])
    && (forall p | 0 <= p < |devices| && p !in positions && Eligible(devices[p], spec, reserved, kind) ::
          forall i | 0 <= i < |ds| :: positions[i] < p)
  }

  /** How many devices the vendor can offer, counted directly. */
  function EligibleCount(spec: Submission, devices: seq<Device>, reserved: set<Key>, kind: Kind): nat {
    |set p | 0 <= p < |devices| && Eligible(devices[p], spec, reserved, kind)|
  }

  /** The positions of the eligible devices from lo on. */
  ghost function EligibleFrom(spec: Submission, devices: seq<Device>, reserved: set<Key>, kind: Kind, lo: nat)
    : (positions: seq<nat>)
    requires lo <= |devices|
    ensures forall i | 0 <= i < |positions| :: lo <= positions[i] < |devices|
    ensures forall i, j | 0 <= i < j < |positions| :: positions[i] < positions[j]
    decreases |devices| - lo
  {
    if lo == |devices| then []
    else
      (if Eligible(devices[lo], spec, reserved, kind) then [lo] else [])
      + EligibleFrom(spec, devices, reserved, kind, lo + 1)
  }

  lemma {:induction false} EligibleFromIsExact(spec: Submission, devices: seq<Device>, reserved: set<Key>,
                                               kind: Kind, lo: nat)
    requires lo <= |devices|
    ensures forall p :: p in EligibleFrom(spec, devices, reserved, kind, lo) <==>
                        lo <= p < |devices| && Eligible(devices[p], spec, reserved, kind)
    decreases |devices| - lo
  {
    if lo < |devices| { EligibleFromIsExact(spec, devices, reserved, kind, lo + 1); }
  }

  lemma PoolStep(spec: Submission, devices: seq<Device>, reserved: set<Key>, kind: Kind, lo: nat)
    requires lo < |devices|
    ensures Pool(spec, devices[lo..], reserved, kind) ==
              (if Eligible(devices[lo], spec, reserved, kind) then [devices[lo]] else [])
              + Pool(spec, devices[lo + 1..], reserved, kind)
  {
    assert devices[lo..][0] == devices[lo] && devices[lo..][1..] == devices[lo + 1..];
  }

  ghost function At(devices: seq<Device>, positions: seq<nat>): (ds: seq<Device>)
    requires forall i | 0 <= i < |positions| :: positions[i] < |devices|
    ensures |ds| == |positions| && forall i | 0 <= i < |ds| :: ds[i] == devices[positions[i]]
  {
    if positions == [] then [] else [devices[positions[0]]] + At(devices, positions[1..])
  }

  lemma {:induction false} PoolPositions(spec: Submission, devices: seq<Device>, reserved: set<Key>, kind: Kind,
                                         lo: nat)
    requires lo <= |devices|
    ensures Pool(spec, devices[lo..], reserved, kind) == At(devices, EligibleFrom(spec, devices, reserved, kind, lo))
    decreases |devices| - lo
  {
    if lo < |devices| {
      PoolPositions(spec, devices, reserved, kind, lo + 1);
      PoolStep(spec, devices, reserved, kind, lo);
      var rest := EligibleFrom(spec, devices, reserved, kind, lo + 1);
      assert ([lo] + rest)[1..] == rest;
      assert [] + rest == rest;
    }
  }

  lemma PoolIsFirstPositions(spec: Submission, devices: seq<Device>, reserved: set<Key>, kind: Kind)
    ensures var positions, pool := EligibleFrom(spec, devices, reserved, kind, 0), Pool(spec, devices, reserved, kind);
            |pool| == |positions| && forall i | 0 <= i < |pool| :: pool[i] == devices[positions[i]]
  {
    hide Pool, EligibleFrom, Eligible;
    PoolPositions(spec, devices, reserved, kind, 0);
    assert devices[0..] == devices;
  }

  function Elements(s: seq<nat>): set<nat> {
    set p | p in s
  }

  lemma {:induction false} CountedBy(positions: seq<nat>)
    requires NoDuplicates(positions)
    ensures |Elements(positions)| == |positions|
  {
    if positions == [] {
      assert Elements(positions) == {};
    } else {
      var head, tail := positions[0], positions[1..];
      CountedBy(tail);
      assert positions == [head] + tail;
      assert Elements(positions) == {head} + Elements(tail);
      assert head !in tail;
    }
  }

  lemma PoolSize(spec: Submission, devices: seq<Device>, reserved: set<Key>, kind: Kind)
    ensures |Pool(spec, devices, reserved, kind)| == EligibleCount(spec, devices, reserved, kind)
  {
    var positions := EligibleFrom(spec, devices, reserved, kind, 0);
    EligibleFromIsExact(spec, devices, reserved, kind, 0);
    PoolIsFirstPositions(spec, devices, reserved, kind);
    hide Pool, EligibleFrom;
    CountedBy(positions);
    assert (set p | 0 <= p < |devices| && Eligible(devices[p], spec, reserved, kind)) == Elements(positions);
  }

  /** Cutting a list of all eligible positions short leaves the first of them. */
  lemma PositionsPrefix(spec: Submission, devices: seq<Device>, reserved: set<Key>, kind: Kind,
                        ds: seq<Device>, positions: seq<nat>, n: nat)
    requires AtPositions(spec, devices, reserved, kind, ds, positions) && n <= |ds|
    requires forall p | 0 <= p < |devices| && Eligible(devices[p], spec, reserved, kind) :: p in positions
    ensures AtPositions(spec, devices, reserved, kind, ds[..n], positions[..n])
  {
    hide Eligible;
    var front := positions[..n];
    forall p | 0 <= p < |devices| && p !in front && Eligible(devices[p], spec, reserved, kind)
      ensures forall i | 0 <= i < n :: front[i] < p
    {
      assert forall m | 0 <= m < n :: front[m] in front;
      var j :| 0 <= j < |positions| && positions[j] == p;
    }
  }

  lemma PoolPrefix(spec: Submission, devices: seq<Device>, reserved: set<Key>, kind: Kind, n: nat)
    requires n <= |Pool(spec, devices, reserved, kind)|
    ensures FirstEligible(spec, devices, reserved, kind, Pool(spec, devices, reserved, kind)[..n])
  {
    hide Pool, Eligible;
    var positions, pool := EligibleFrom(spec, devices, reserved, kind, 0), Pool(spec, devices, reserved, kind);
    EligibleFromIsExact(spec, devices, reserved, kind, 0);
    PoolIsFirstPositions(spec, devices, reserved, kind);
    hide EligibleFrom;
    forall i | 0 <= i < |pool| ensures Eligible(pool[i], spec, reserved, kind) {
      assert positions[i] in positions;
    }
    assert AtPositions(spec, devices, reserved, kind, pool, positions);
    PositionsPrefix(spec, devices, reserved, kind, pool, positions, n);
  }

  /** The chosen vendor is the first one, in priority order, that the request admits and that can serve it. */
  ghost predicate FirstServing(spec: Submission, devices: seq<Device>, reserved: set<Key>, kind: Kind) {
    exists i | 0 <= i < |PRIORITY| :: (
      && PRIORITY[i] == kind && Admits(spec, kind) && EligibleCount(spec, devices, reserved, kind) >= spec.count
      && forall j | 0 <= j < i ::
           Admits(spec, PRIORITY[j]) ==> EligibleCount(spec, devices, reserved, PRIORITY[j]) < spec.count)
  }

  lemma {:induction false} FirstFitScans(i: nat, spec: Submission, devices: seq<Device>, reserved: set<Key>)
    returns (chosen: nat)
    requires i <= |PRIORITY|
    ensures i <= chosen <= |PRIORITY|
    ensures forall j | i <= j < chosen ::
              Admits(spec, PRIORITY[j]) ==> EligibleCount(spec, devices, reserved, PRIORITY[j]) < spec.count
    ensures var r := FirstFit(PRIORITY[i..], spec, devices, reserved);
            if chosen == |PRIORITY| then r == None
            else
              && r.Some? && Admits(spec, PRIORITY[chosen])
              && EligibleCount(spec, devices, reserved, PRIORITY[chosen]) >= spec.count
              && |r.value| == spec.count
              && FirstEligible(spec, devices, reserved, PRIORITY[chosen], r.value)
    decreases |PRIORITY| - i
  {
    chosen := i;
    if i < |PRIORITY| {
      assert PRIORITY[i..][0] == PRIORITY[i] && PRIORITY[i..][1..] == PRIORITY[i + 1..];
      PoolSize(spec, devices, reserved, PRIORITY[i]);
      if Admits(spec, PRIORITY[i]) && |Pool(spec, devices, reserved, PRIORITY[i])| >= spec.count {
        PoolPrefix(spec, devices, reserved, PRIORITY[i], spec.count);
      } else {
        chosen := FirstFitScans(i + 1, spec, devices, reserved);
      }
    }
  }

  /** Automatic mode: None exactly when no admissible vendor has enough free devices; otherwise the first
      count of them, in inventory order, from the first vendor that has enough. */
  lemma AutomaticAllocation(spec: Submission, devices: seq<Device>, reserved: set<Key>)
    requires spec.deviceIds.None? && spec.count > 0
    ensures Allocate(spec, devices, reserved).None? <==>
              forall kind :: Admits(spec, kind) ==> EligibleCount(spec, devices, reserved, kind) < spec.count
    ensures var r := Allocate(spec, devices, reserved);
            r.Some? ==> |r.value| == spec.count && exists kind ::
              FirstServing(spec, devices, reserved, kind) && FirstEligible(spec, devices, reserved, kind, r.value)
  {
    var chosen := FirstFitScans(0, spec, devices, reserved);
    assert PRIORITY[0..] == PRIORITY;
    if chosen == |PRIORITY| {
      forall kind | Admits(spec, kind) ensures EligibleCount(spec, devices, reserved, kind) < spec.count {
        PriorityIsTotal(kind);
      }
    } else {
      assert FirstServing(spec, devices, reserved, PRIORITY[chosen]);
    }
  }

  // ----- Exact requests -----

  ghost predicate FirstNamed(devices: seq<Device>, kind: Kind, id: nat, d: Device) {
    exists i | 0 <= i < |devices| :: (
      && devices[i] == d && d.kind == kind && d.id == id
      && forall j | 0 <= j < i :: devices[j].kind != kind || devices[j].id != id)
  }

  /** ds answers the IDs one by one, in request order, each with the vendor's first device of that ID. */
  ghost predicate Answers(devices: seq<Device>, kind: Kind, ids: seq<nat>, ds: seq<Device>) {
    |ds| == |ids| && forall i | 0 <= i < |ids| :: FirstNamed(devices, kind, ids[i], ds[i])
  }

  lemma FirstNamedIsFound(devices: seq<Device>, kind: Kind, id: nat, d: Device)
    ensures FirstNamed(devices, kind, id, d) <==> FindDevice(devices, kind, id) == Some(d)
  {
    FindDeviceMeaning(devices, kind, id);
    if FirstNamed(devices, kind, id, d) {
      assert d in devices;
    }
  }

  lemma {:induction false} SelectExactMeaning(ids: seq<nat>, devices: seq<Device>, kind: Kind, reserved: set<Key>,
                                              ds: seq<Device>)
    ensures SelectExact(ids, devices, kind, reserved) == Some(ds) <==>
              Answers(devices, kind, ids, ds) && Keys(ds) !! reserved
  {
    if ids != [] {
      if ds != [] {
        SelectExactMeaning(ids[1..], devices, kind, reserved, ds[1..]);
        FirstNamedIsFound(devices, kind, ids[0], ds[0]);
        assert ds == [ds[0]] + ds[1..];
        assert Keys(ds) == {ds[0].Key()} + Keys(ds[1..]);
        if Answers(devices, kind, ids, ds) {
          forall i | 0 <= i < |ids[1..]| ensures FirstNamed(devices, kind, ids[1..][i], ds[1..][i]) {
            assert ids[1..][i] == ids[i + 1];
          }
        }
        if FirstNamed(devices, kind, ids[0], ds[0]) && Answers(devices, kind, ids[1..], ds[1..]) {
          forall i | 0 <= i < |ids| ensures FirstNamed(devices, kind, ids[i], ds[i]) {
            if i > 0 { assert ids[1..][i - 1] == ids[i] && ds[1..][i - 1] == ds[i]; }
          }
        }
      }
    } else {
      assert Answers(devices, kind, ids, []);
    }
  }

  /** Exact mode: the vendor is the first that matches; the answer is the requested IDs in request order,
      and it is given exactly when none of those devices is reserved. */
  lemma ExactAllocation(spec: Submission, devices: seq<Device>, reserved: set<Key>, ds: seq<Device>)
    requires spec.deviceIds.Some?
    ensures Allocate(spec, devices, reserved) == Some(ds) <==>
              exists kind :: FirstMatch(PRIORITY, spec, devices, kind)
                             && Answers(devices, kind, spec.deviceIds.value, ds) && Keys(ds) !! reserved
  {
    MatchingFromMeaning(PRIORITY, spec, devices);
    var kinds := MatchingKinds(spec, devices);
    if kinds != [] {
      SelectExactMeaning(spec.deviceIds.value, devices, kinds[0], reserved, ds);
    }
    forall kind | FirstMatch(PRIORITY, spec, devices, kind) ensures kinds != [] && kind == kinds[0] {
      assert kind in kinds;
    }
  }

  // ----- Laws used by the scheduler -----

  lemma {:induction false} PoolShrinks(spec: Submission, devices: seq<Device>, r: set<Key>, r': set<Key>, kind: Kind)
    requires r <= r'
    ensures |Pool(spec, devices, r', kind)| <= |Pool(spec, devices, r, kind)|
  {
    if devices != [] { PoolShrinks(spec, devices[1..], r, r', kind); }
  }

  lemma {:induction false} FirstFitAntitone(kinds: seq<Kind>, spec: Submission, devices: seq<Device>, r: set<Key>,
                                            r': set<Key>)
    requires r <= r' && FirstFit(kinds, spec, devices, r).None?
    ensures FirstFit(kinds, spec, devices, r').None?
  {
    if kinds != [] {
      PoolShrinks(spec, devices, r, r', kinds[0]);
      FirstFitAntitone(kinds[1..], spec, devices, r, r');
    }
  }

  lemma {:induction false} SelectExactAntitone(ids: seq<nat>, devices: seq<Device>, kind: Kind, r: set<Key>,
                                               r': set<Key>)
    requires r <= r' && SelectExact(ids, devices, kind, r).None?
    ensures SelectExact(ids, devices, kind, r').None?
  {
    if ids != [] && FindDevice(devices, kind, ids[0]).Some? && FindDevice(devices, kind, ids[0]).value.Key() !in r {
      SelectExactAntitone(ids[1..], devices, kind, r, r');
    }
  }

  /** Reserving more devices never makes a refused request succeed. */
  lemma AllocateAntitone(spec: Submission, devices: seq<Device>, r: set<Key>, r': set<Key>)
    requires r <= r'
    ensures Allocate(spec, devices, r).None? ==> Allocate(spec, devices, r').None?
  {
    if Allocate(spec, devices, r).None? {
      match spec.deviceIds
      case Some(ids) =>
        var kinds := MatchingKinds(spec, devices);
        if kinds != [] { SelectExactAntitone(ids, devices, kinds[0], r, r'); }
      case None => FirstFitAntitone(PRIORITY, spec, devices, r, r');
    }
  }

  predicate ValidRequest(spec: Submission) {
    spec.deviceIds.Some? ==> NoDuplicates(spec.deviceIds.value) && spec.count == |spec.deviceIds.value|
  }

  /** What a grant promises. */
  ghost predicate GoodGrant(spec: Submission, devices: seq<Device>, reserved: set<Key>, ds: seq<Device>) {
    && |ds| == spec.count && DistinctKeys(ds) && Keys(ds) !! reserved
    && (forall d | d in ds :: d in devices && d.id !in (if spec.deviceIds.None? then spec.excludeIds else []))
    && (exists kind :: Admits(spec, kind) && forall d | d in ds :: d.kind == kind)
  }

  lemma ExactGrants(spec: Submission, devices: seq<Device>, reserved: set<Key>, ds: seq<Device>)
    requires ValidRequest(spec) && DistinctKeys(devices) && spec.deviceIds.Some?
    requires Allocate(spec, devices, reserved) == Some(ds)
    ensures GoodGrant(spec, devices, reserved, ds)
  {
    hide Allocate;
    var ids := spec.deviceIds.value;
    ExactAllocation(spec, devices, reserved, ds);
    var kind :| FirstMatch(PRIORITY, spec, devices, kind) && Answers(devices, kind, ids, ds);
    forall i, j | 0 <= i < j < |ds| ensures ds[i].Key() != ds[j].Key() {
      var a :| 0 <= a < |devices| && devices[a] == ds[i];
      var b :| 0 <= b < |devices| && devices[b] == ds[j];
      assert ids[i] == ds[i].id && ids[j] == ds[j].id;
    }
  }

  lemma AutomaticGrants(spec: Submission, devices: seq<Device>, reserved: set<Key>, ds: seq<Device>)
    requires DistinctKeys(devices) && spec.deviceIds.None? && spec.count > 0
    requires Allocate(spec, devices, reserved) == Some(ds)
    ensures GoodGrant(spec, devices, reserved, ds)
  {
    hide Allocate;
    AutomaticAllocation(spec, devices, reserved);
    var kind :| FirstServing(spec, devices, reserved, kind) && FirstEligible(spec, devices, reserved, kind, ds);
    hide EligibleCount;
    var positions: seq<nat> :| AtPositions(spec, devices, reserved, kind, ds, positions);
    forall i, j | 0 <= i < j < |ds| ensures ds[i].Key() != ds[j].Key() {
      assert positions[i] < positions[j];
    }
  }

  /** Every grant is made of free devices of one vendor, as many as requested, and names no key twice. */
  lemma AllocateGrants(spec: Submission, devices: seq<Device>, reserved: set<Key>)
    requires ValidRequest(spec) && DistinctKeys(devices)
    requires Allocate(spec, devices, reserved).Some?
    ensures var ds := Allocate(spec, devices, reserved).value;
            && |ds| == spec.count && DistinctKeys(ds) && Keys(ds) !! reserved
            && (forall d | d in ds :: d in devices && d.id !in (if spec.deviceIds.None? then spec.excludeIds else []))
            && (exists kind :: Admits(spec, kind) && forall d | d in ds :: d.kind == kind)
  {
    var ds := Allocate(spec, devices, reserved).value;
    if spec.deviceIds.Some? {
      ExactGrants(spec, devices, reserved, ds);
    } else if spec.count == 0 {
      PriorityAdmitsSome(spec);
    } else {
      AutomaticGrants(spec, devices, reserved, ds);
    }
  }

  lemma PriorityAdmitsSome(spec: Submission)
    ensures exists kind :: Admits(spec, kind)
  {
    assert Admits(spec, if spec.kind.Some? then spec.kind.value else Nvidia);
  }

  // ----- The same, in terms of the request and the inventory alone -----

  /** The request does not rule the vendor out. */
  predicate Allows(spec: Submission, kind: Kind) {
    spec.kind == None || spec.kind == Some(kind)
  }

  /** The positions of the vendor's devices that are neither reserved nor excluded by the request. */
  function FreeAt(spec: Submission, devices: seq<Device>, reserved: set<Key>, kind: Kind): set<nat> {
    set p: nat | p < |devices| && devices[p].kind == kind && KeyOf(kind, devices[p].visible) !in reserved
                 && !exists j :: 0 <= j < |spec.excludeIds| && spec.excludeIds[j] == devices[p].id
  }

  predicate Offers(spec: Submission, devices: seq<Device>, reserved: set<Key>, kind: Kind) {
    Allows(spec, kind) && |FreeAt(spec, devices, reserved, kind)| >= spec.count
  }

  /** The vendor is allowed and has a device for each of the IDs. */
  predicate HasAll(spec: Submission, devices: seq<Device>, ids: seq<nat>, kind: Kind) {
    Allows(spec, kind)
    && forall k | 0 <= k < |ids| :: exists p :: 0 <= p < |devices| && devices[p].kind == kind && devices[p].id == ids[k]
  }

  /** The first vendor of which it holds: NVIDIA, Ascend, Moore Threads, MetaX, PPU, Hygon. */
  function Preferred(holds: Kind -> bool): Option<Kind> {
    if holds(Nvidia) then Some(Nvidia)
    else if holds(Ascend) then Some(Ascend)
    else if holds(Mthreads) then Some(Mthreads)
    else if holds(Metax) then Some(Metax)
    else if holds(Ppu) then Some(Ppu)
    else if holds(Hcu) then Some(Hcu)
    else None
  }

  lemma EligibleIsFree(spec: Submission, devices: seq<Device>, reserved: set<Key>, kind: Kind, p: nat)
    requires p < |devices|
    ensures Eligible(devices[p], spec, reserved, kind) <==> p in FreeAt(spec, devices, reserved, kind)
  {
    if devices[p].id in spec.excludeIds {
      var j :| 0 <= j < |spec.excludeIds| && spec.excludeIds[j] == devices[p].id;
    }
  }

  lemma OffersMeaning(spec: Submission, devices: seq<Device>, reserved: set<Key>, kind: Kind)
    ensures Offers(spec, devices, reserved, kind) <==>
              Admits(spec, kind) && EligibleCount(spec, devices, reserved, kind) >= spec.count
  {
    forall p: nat | p < |devices|
      ensures Eligible(devices[p], spec, reserved, kind) <==> p in FreeAt(spec, devices, reserved, kind)
    {
      EligibleIsFree(spec, devices, reserved, kind, p);
    }
    assert (set p | 0 <= p < |devices| && Eligible(devices[p], spec, reserved, kind))
           == FreeAt(spec, devices, reserved, kind);
  }

  /** The vendor at position i of the priority list, if it is the first there of which the property holds. */
  lemma FirstIsPreferred(holds: Kind -> bool, i: nat)
    requires i < |PRIORITY| && holds(PRIORITY[i]) && forall j | 0 <= j < i :: !holds(PRIORITY[j])
    ensures Preferred(holds) == Some(PRIORITY[i])
  {
    assert PRIORITY[0] == Nvidia && PRIORITY[1] == Ascend && PRIORITY[2] == Mthreads;
    assert PRIORITY[3] == Metax && PRIORITY[4] == Ppu && PRIORITY[5] == Hcu;
    assert i == 0 || i == 1 || i == 2 || i == 3 || i == 4 || i == 5;
  }

  /** ds are the devices at the first free positions of the vendor. */
  ghost predicate FirstFree(spec: Submission, devices: seq<Device>, reserved: set<Key>, kind: Kind, ds: seq<Device>) {
    exists positions: seq<nat> :: FreePositions(spec, devices, reserved, kind, ds, positions)
  }

  ghost predicate FreePositions(spec: Submission, devices: seq<Device>, reserved: set<Key>, kind: Kind,
                                ds: seq<Device>, positions: seq<nat>) {
    && |ds| == |positions| == spec.count
    && (forall i | 0 <= i < |ds| :: positions[i] in FreeAt(spec, devices, reserved, kind)
                                    && ds[i] == devices[positions[i]])
    && (forall i, j | 0 <= i < j < |ds| :: positions[i] < positions[j])
    && (forall p, i | p in FreeAt(spec, devices, reserved, kind) && p !in positions && 0 <= i < |ds| ::
          positions[i] < p)
  }

  lemma FirstEligibleIsFree(spec: Submission, devices: seq<Device>, reserved: set<Key>, kind: Kind, ds: seq<Device>)
    requires FirstEligible(spec, devices, reserved, kind, ds) && |ds| == spec.count
    ensures FirstFree(spec, devices, reserved, kind, ds)
  {
    forall p: nat | p < |devices|
      ensures Eligible(devices[p], spec, reserved, kind) <==> p in FreeAt(spec, devices, reserved, kind)
    {
      EligibleIsFree(spec, devices, reserved, kind, p);
    }
    hide Eligible, FreeAt;
    var positions: seq<nat> :| AtPositions(spec, devices, reserved, kind, ds, positions);
    FreeAtIsInRange(spec, devices, reserved, kind);
    assert FreePositions(spec, devices, reserved, kind, ds, positions);
  }

  lemma FreeAtIsInRange(spec: Submission, devices: seq<Device>, reserved: set<Key>, kind: Kind)
    ensures forall p | p in FreeAt(spec, devices, reserved, kind) :: p < |devices|
  {
  }

  /** Automatic mode, vendor by vendor: the first vendor in the order of `Preferred` that is allowed and has as many
      free devices as are asked for gives the first of them, in inventory order; without such a vendor nothing is
      given. */
  lemma AutomaticVendor(spec: Submission, devices: seq<Device>, reserved: set<Key>)
    requires spec.deviceIds.None? && spec.count > 0
    ensures var r, vendor := Allocate(spec, devices, reserved), Preferred(k => Offers(spec, devices, reserved, k));
            && (r.Some? <==> vendor.Some?)
            && (r.Some? ==> FirstFree(spec, devices, reserved, vendor.value, r.value))
  {
    var holds := k => Offers(spec, devices, reserved, k);
    forall k ensures holds(k) <==> Admits(spec, k) && EligibleCount(spec, devices, reserved, k) >= spec.count {
      OffersMeaning(spec, devices, reserved, k);
    }
    AutomaticAllocation(spec, devices, reserved);
    hide Allocate, Offers, EligibleCount, FirstEligible, FirstFree, Admits;
    var r := Allocate(spec, devices, reserved);
    if r.Some? {
      var kind :| FirstServing(spec, devices, reserved, kind) && FirstEligible(spec, devices, reserved, kind, r.value);
      var i :| 0 <= i < |PRIORITY| && PRIORITY[i] == kind && holds(kind)
              && forall j | 0 <= j < i :: !holds(PRIORITY[j]);
      FirstIsPreferred(holds, i);
      FirstEligibleIsFree(spec, devices, reserved, kind, r.value);
    }
  }

  lemma HasAllMeaning(spec: Submission, devices: seq<Device>, kind: Kind)
    requires spec.deviceIds.Some?
    ensures HasAll(spec, devices, spec.deviceIds.value, kind) <==> Matches(spec, devices, kind)
  {
    var ids := spec.deviceIds.value;
    forall k | 0 <= k < |ids|
      ensures FindDevice(devices, kind, ids[k]).Some? <==>
              exists p :: 0 <= p < |devices| && devices[p].kind == kind && devices[p].id == ids[k]
    {
      FindDeviceMeaning(devices, kind, ids[k]);
    }
    hide FindDevice;
    assert forall k | 0 <= k < |ids| :: ids[k] in ids;
  }

  /** Exact mode, vendor by vendor: the first vendor in that order that is allowed and has all the IDs gives the first
      of its devices with each ID, in request order; nothing is given exactly if there is none or one of them is
      reserved. */
  lemma ExactVendor(spec: Submission, ids: seq<nat>, devices: seq<Device>, reserved: set<Key>, ds: seq<Device>)
    requires spec.deviceIds == Some(ids)
    ensures var vendor := Preferred(k => HasAll(spec, devices, ids, k));
            Allocate(spec, devices, reserved) == Some(ds) <==>
              && vendor.Some? && Answers(devices, vendor.value, ids, ds)
              && forall i | 0 <= i < |ds| :: KeyOf(ds[i].kind, ds[i].visible) !in reserved
  {
    var holds := k => HasAll(spec, devices, ids, k);
    forall k ensures holds(k) <==> Matches(spec, devices, k) { HasAllMeaning(spec, devices, k); }
    ExactAllocation(spec, devices, reserved, ds);
    hide Allocate, HasAll, Answers, Matches;
    forall kind ensures FirstMatch(PRIORITY, spec, devices, kind) <==> Preferred(holds) == Some(kind) {
      MatchIsPreferred(spec, devices, holds, kind);
    }
    assert Keys(ds) !! reserved <==> forall i | 0 <= i < |ds| :: ds[i].Key() !in reserved by {
      assert forall i | 0 <= i < |ds| :: ds[i] in ds;
    }
  }

  lemma MatchIsPreferred(spec: Submission, devices: seq<Device>, holds: Kind -> bool, kind: Kind)
    requires forall k :: holds(k) <==> Matches(spec, devices, k)
    ensures FirstMatch(PRIORITY, spec, devices, kind) <==> Preferred(holds) == Some(kind)
  {
    hide Matches;
    if FirstMatch(PRIORITY, spec, devices, kind) {
      var i :| 0 <= i < |PRIORITY| && PRIORITY[i] == kind && holds(PRIORITY[i])
        && forall j | 0 <= j < i :: !holds(PRIORITY[j]);
      FirstIsPreferred(holds, i);
    } else if Preferred(holds) == Some(kind) {
      PriorityIsTotal(kind);
      var i := FirstHolding(holds, kind);
      FirstIsPreferred(holds, i);
      assert false;
    }
  }

  lemma FirstHolding(holds: Kind -> bool, kind: Kind) returns (i: nat)
    requires holds(kind) && kind in PRIORITY
    ensures i < |PRIORITY| && holds(PRIORITY[i]) && forall j | 0 <= j < i :: !holds(PRIORITY[j])
  {
    i := 0;
    while !holds(PRIORITY[i])
      invariant i < |PRIORITY| && forall j | 0 <= j < i :: !holds(PRIORITY[j])
      decreases |PRIORITY| - i
    {
      i := i + 1;
    }
  }
}
