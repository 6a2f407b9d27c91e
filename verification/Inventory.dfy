/** Device discovery and monitoring (src/device/mod.rs): the vendors' device lists become one inventory with
    globally distinct keys, and a failed reading never makes a device available. */
module Inventories {
  import opened Model

  datatype Backend = Auto | Only(kind: Kind) | NoBackend

  predicate Selected(backend: Backend, kind: Kind) {
    backend.Auto? || (backend.Only? && backend.kind == kind)
  }

  /** What one vendor's driver lists: an error is None. */
  type Drivers = Kind -> Option<seq<Device>>

  /** Every driver fills in its own vendor. */
  ghost predicate OwnKind(drivers: Drivers) {
    forall kind | drivers(kind).Some? :: forall d | d in drivers(kind).value :: d.kind == kind
  }

  /** No two entries have the same vendor and visible name. */
  ghost predicate NoneTwice(devices: seq<Device>) {
    forall i, j | 0 <= i < j < |devices| ::
      devices[i].kind != devices[j].kind || devices[i].visible != devices[j].visible
  }

  /** validate: a list that is empty or names a key twice is refused. */
  method Validate(devices: seq<Device>) returns (ok: bool)
    ensures ok <==> devices != [] && DistinctKeys(devices)
    ensures ok <==> devices != [] && NoneTwice(devices)
  {
    if devices == [] { return false; }
    var keys: set<Key> := {};
    var i := 0;
    while i < |devices|
      invariant 0 <= i <= |devices| && keys == Keys(devices[..i]) && DistinctKeys(devices[..i])
    {
      if devices[i].Key() in keys {
        var j :| 0 <= j < i && devices[..i][j].Key() == devices[i].Key();
        assert devices[j].Key() == devices[i].Key();
        return false;
      }
      assert devices[..i + 1] == devices[..i] + [devices[i]];
      keys := keys + {devices[i].Key()};
      i := i + 1;
    }
    assert devices[..i] == devices;
    return true;
  }

  predicate Usable(drivers: Drivers, kind: Kind) {
    drivers(kind).Some? && drivers(kind).value != [] && DistinctKeys(drivers(kind).value)
  }

  function Listing(backend: Backend, drivers: Drivers, kind: Kind): seq<Device> {
    if Selected(backend, kind) && Usable(drivers, kind) then drivers(kind).value else []
  }

  function Listings(kinds: seq<Kind>, backend: Backend, drivers: Drivers): seq<Device> {
    if kinds == [] then []
    else Listings(kinds[..|kinds| - 1], backend, drivers) + Listing(backend, drivers, kinds[|kinds| - 1])
  }

  /** What a vendor contributes: its list, if it is asked for and the list is there, not empty, and without a device
      that is in it twice. */
  ghost predicate Contributes(backend: Backend, drivers: Drivers, kind: Kind) {
    && (backend == Auto || backend == Only(kind)) && drivers(kind).Some? && drivers(kind).value != []
    && NoneTwice(drivers(kind).value)
  }

  ghost function Part(backend: Backend, drivers: Drivers, kind: Kind): seq<Device> {
    if Contributes(backend, drivers, kind) then drivers(kind).value else []
  }

  /** The inventory, vendor by vendor. */
  ghost predicate ByVendor(backend: Backend, drivers: Drivers, devices: seq<Device>) {
    devices == Part(backend, drivers, Nvidia) + Part(backend, drivers, Ascend) + Part(backend, drivers, Mthreads)
               + Part(backend, drivers, Metax) + Part(backend, drivers, Ppu) + Part(backend, drivers, Hcu)
  }

  lemma PartIsListing(backend: Backend, drivers: Drivers, kind: Kind)
    ensures Part(backend, drivers, kind) == Listing(backend, drivers, kind)
    ensures backend == Only(kind) ==> (Usable(drivers, kind) <==> Contributes(backend, drivers, kind))
  {
  }

  /** The parts of the first n vendors. */
  ghost function FirstParts(n: nat, backend: Backend, drivers: Drivers): seq<Device>
    requires n <= |PRIORITY|
  {
    Listings(PRIORITY[..n], backend, drivers)
  }

  lemma PartsNext(n: nat, kind: Kind, backend: Backend, drivers: Drivers)
    requires n < |PRIORITY| && PRIORITY[n] == kind
    ensures FirstParts(n + 1, backend, drivers) == FirstParts(n, backend, drivers) + Part(backend, drivers, kind)
  {
    assert PRIORITY[..n + 1][..n] == PRIORITY[..n];
    PartIsListing(backend, drivers, kind);
  }

  lemma PartsEnds(backend: Backend, drivers: Drivers)
    ensures FirstParts(0, backend, drivers) == []
    ensures |PRIORITY| == 6 && FirstParts(6, backend, drivers) == Listings(PRIORITY, backend, drivers)
  {
    assert PRIORITY[..0] == [] && PRIORITY[..6] == PRIORITY;
  }

  lemma ListingsByVendor(backend: Backend, drivers: Drivers)
    ensures ByVendor(backend, drivers, Listings(PRIORITY, backend, drivers))
  {
    hide FirstParts, Part, Listings;
    PartsEnds(backend, drivers);
    PartsNext(0, Nvidia, backend, drivers);
    PartsNext(1, Ascend, backend, drivers);
    PartsNext(2, Mthreads, backend, drivers);
    PartsNext(3, Metax, backend, drivers);
    PartsNext(4, Ppu, backend, drivers);
    PartsNext(5, Hcu, backend, drivers);
  }

  /** discover: the selected vendors' devices in priority order. A vendor that cannot be listed is passed over in
      automatic mode and fatal when it was asked for. */
  method Discover(backend: Backend, drivers: Drivers) returns (r: Option<seq<Device>>)
    ensures r.None? <==> backend.Only? && !Usable(drivers, backend.kind)
    ensures r.Some? ==> r.value == Listings(PRIORITY, backend, drivers)
    ensures r.None? <==> exists kind :: backend == Only(kind) && !Contributes(backend, drivers, kind)
    ensures r.Some? ==> ByVendor(backend, drivers, r.value)
  {
    ListingsByVendor(backend, drivers);
    if backend.Only? { PartIsListing(backend, drivers, backend.kind); }
    hide Usable, Contributes, ByVendor, NoneTwice;
    var devices: seq<Device> := [];
    var i := 0;
    while i < |PRIORITY|
      invariant 0 <= i <= |PRIORITY| && devices == Listings(PRIORITY[..i], backend, drivers)
      invariant backend.Only? && backend.kind in PRIORITY[..i] ==> Usable(drivers, backend.kind)
    {
      assert PRIORITY[..i + 1] == PRIORITY[..i] + [PRIORITY[i]];
      assert PRIORITY[..i + 1][..i] == PRIORITY[..i];
      var kind := PRIORITY[i];
      if Selected(backend, kind) {
        var found := drivers(kind);
        var valid := false;
        if found.Some? { valid := Validate(found.value); }
        if valid {
          devices := devices + found.value;
        } else if !backend.Auto? {
          return None;
        }
      }
      i := i + 1;
    }
    assert PRIORITY[..i] == PRIORITY;
    if backend.Only? { PriorityIsTotal(backend.kind); }
    return Some(devices);
  }

  lemma ConcatKeepsDistinct(a: seq<Device>, b: seq<Device>)
    requires DistinctKeys(a) && DistinctKeys(b) && forall d, e | d in a && e in b :: d.kind != e.kind
    ensures DistinctKeys(a + b)
  {
    forall i, j | 0 <= i < j < |a + b| ensures (a + b)[i].Key() != (a + b)[j].Key() {
      if i < |a| <= j { assert a[i] in a && b[j - |a|] in b; }
    }
  }

  lemma {:induction false} ListingsAreDistinct(kinds: seq<Kind>, backend: Backend, drivers: Drivers)
    requires OwnKind(drivers) && NoDuplicates(kinds)
    ensures DistinctKeys(Listings(kinds, backend, drivers))
    ensures forall d | d in Listings(kinds, backend, drivers) :: d.kind in kinds
  {
    if kinds != [] {
      var front, last := kinds[..|kinds| - 1], kinds[|kinds| - 1];
      ListingsAreDistinct(front, backend, drivers);
      assert last !in front;
      ConcatKeepsDistinct(Listings(front, backend, drivers), Listing(backend, drivers, last));
    }
  }

  lemma {:induction false} ListingsAreComplete(kinds: seq<Kind>, backend: Backend, drivers: Drivers, d: Device)
    requires OwnKind(drivers)
    ensures d in Listings(kinds, backend, drivers) <==>
              d.kind in kinds && Selected(backend, d.kind) && Usable(drivers, d.kind) && d in drivers(d.kind).value
  {
    if kinds != [] {
      var front, last := kinds[..|kinds| - 1], kinds[|kinds| - 1];
      ListingsAreComplete(front, backend, drivers, d);
      assert kinds == front + [last];
    }
  }

  /** The inventory holds exactly the devices of the selected vendors that could be listed, and no key twice,
      within a vendor or across vendors. This is what the scheduler requires of its inventory. */
  lemma InventoryKeysAreDistinct(backend: Backend, drivers: Drivers)
    requires OwnKind(drivers)
    ensures var devices := Listings(PRIORITY, backend, drivers);
            && DistinctKeys(devices)
            && forall d :: d in devices <==>
                 Selected(backend, d.kind) && Usable(drivers, d.kind) && d in drivers(d.kind).value
  {
    PriorityIsTotal(Nvidia);
    ListingsAreDistinct(PRIORITY, backend, drivers);
    forall d: Device ensures d in Listings(PRIORITY, backend, drivers) <==>
        Selected(backend, d.kind) && Usable(drivers, d.kind) && d in drivers(d.kind).value
    {
      PriorityIsTotal(d.kind);
      ListingsAreComplete(PRIORITY, backend, drivers, d);
    }
  }

  // ----- Monitoring -----

  datatype Reading = Known(status: string) | Unreadable(error: string)

  class Monitor {
    const devices: seq<Device>
    var status: map<Key, string>
    var monitoringErrors: map<Key, string>

    constructor (devices: seq<Device>)
      ensures this.devices == devices && status == map[] && monitoringErrors == map[]
    {
      this.devices := devices;
      status := map[];
      monitoringErrors := map[];
    }

    /** refresh: one reading per device. Ascend remembers what went wrong until the next good reading. */
    method Refresh(readings: Key -> Reading)
      modifies this
      ensures forall d | d in devices ::
                d.Key() in status && status[d.Key()]
                    == (if readings(d.Key()).Known? then readings(d.Key()).status else "unknown")
      ensures forall k | k !in Keys(devices) ::
                (k in status <==> k in old(status)) && (k in status ==> status[k] == old(status)[k])
      ensures forall k | forall d | d in devices && d.kind == Ascend :: d.Key() != k ::
                && (k in monitoringErrors <==> k in old(monitoringErrors))
                && (k in monitoringErrors ==> monitoringErrors[k] == old(monitoringErrors)[k])
      ensures forall d | d in devices && d.kind == Ascend ::
                && (d.Key() in monitoringErrors <==> readings(d.Key()).Unreadable?)
                && (d.Key() in monitoringErrors ==> monitoringErrors[d.Key()] == readings(d.Key()).error)
      ensures NotIdle(devices, status) == set d | d in devices && readings(d.Key()) != Known("idle") :: d.Key()
    {
      var i := 0;
      while i < |devices|
        invariant 0 <= i <= |devices|
        invariant status == Read(old(status), devices[..i], readings)
        invariant monitoringErrors == Errors(old(monitoringErrors), devices[..i], readings)
      {
        assert devices[..i + 1][..i] == devices[..i];
        var key := devices[i].Key();
        match readings(key) {
          case Known(s) =>
            if devices[i].kind == Ascend { monitoringErrors := monitoringErrors - {key}; }
            status := status[key := s];
          case Unreadable(e) =>
            if devices[i].kind == Ascend && !(key in monitoringErrors && monitoringErrors[key] == e) {
              monitoringErrors := monitoringErrors[key := e];
            }
            status := status[key := "unknown"];
        }
        i := i + 1;
      }
      assert devices[..i] == devices;
      ReadMeaning(old(status), devices, readings);
      ErrorsMeaning(old(monitoringErrors), devices, readings);
    }
  }

  function StatusOf(reading: Reading): string {
    if reading.Known? then reading.status else "unknown"
  }

  function Read(before: map<Key, string>, devices: seq<Device>, readings: Key -> Reading): map<Key, string> {
    if devices == [] then before
    else
      var d := devices[|devices| - 1];
      Read(before, devices[..|devices| - 1], readings)[d.Key() := StatusOf(readings(d.Key()))]
  }

  function Errors(before: map<Key, string>, devices: seq<Device>, readings: Key -> Reading): map<Key, string> {
    if devices == [] then before
    else
      var d, rest := devices[|devices| - 1], Errors(before, devices[..|devices| - 1], readings);
      if d.kind != Ascend then rest
      else if readings(d.Key()).Known? then rest - {d.Key()} else rest[d.Key() := readings(d.Key()).error]
  }

  lemma {:induction false} ReadMeaning(before: map<Key, string>, devices: seq<Device>, readings: Key -> Reading)
    ensures var after := Read(before, devices, readings);
            && (forall d | d in devices :: d.Key() in after && after[d.Key()] == StatusOf(readings(d.Key())))
            && (forall k | k !in Keys(devices) :: k in after <==> k in before)
            && (forall k | k !in Keys(devices) && k in after :: after[k] == before[k])
  {
    if devices != [] {
      var front := devices[..|devices| - 1];
      ReadMeaning(before, front, readings);
      assert devices == front + [devices[|devices| - 1]];
    }
  }

  lemma {:induction false} ErrorsMeaning(before: map<Key, string>, devices: seq<Device>, readings: Key -> Reading)
    ensures var after := Errors(before, devices, readings);
            && (forall d | d in devices && d.kind == Ascend ::
                  && (d.Key() in after <==> readings(d.Key()).Unreadable?)
                  && (d.Key() in after ==> after[d.Key()] == readings(d.Key()).error))
            && (forall k | forall d | d in devices && d.kind == Ascend :: d.Key() != k ::
                  (k in after <==> k in before) && (k in after ==> after[k] == before[k]))
  {
    if devices != [] {
      var front := devices[..|devices| - 1];
      ErrorsMeaning(before, front, readings);
      assert devices == front + [devices[|devices| - 1]];
    }
  }
}
