/** The scheduler's data (src/model.rs): vendors, devices, requests, jobs and outcomes. */
module Model {
  datatype Option<+T> = None | Some(value: T)

  datatype Kind = Nvidia | Ascend | Mthreads | Metax | Ppu | Hcu

  /** Automatic selection tries the vendors in this order. */
  const PRIORITY: seq<Kind> := [Nvidia, Ascend, Mthreads, Metax, Ppu, Hcu]

  /** The display name that opens a device key. */
  function Label(kind: Kind): string {
    match kind
    case Nvidia => "nv"
    case Ascend => "asc"
    case Mthreads => "mtt"
    case Metax => "mx"
    case Ppu => "ppu"
    case Hcu => "hcu"
  }

  /** A device key. The program stores the text KeyText(key); KeyTextIsInjective lets the pair stand for it. */
  datatype Key = KeyOf(kind: Kind, visible: string)

  function KeyText(key: Key): string {
    Label(key.kind) + ":" + key.visible
  }

  /** The vendor label holds no colon, so the first colon splits a key text in one way only. */
  lemma KeyTextIsInjective(a: Key, b: Key)
    ensures KeyText(a) == KeyText(b) <==> a == b
  {
    if KeyText(a) == KeyText(b) {
      var la, lb := |Label(a.kind)|, |Label(b.kind)|;
      assert KeyText(a)[la] == ':' && KeyText(b)[lb] == ':';
      assert KeyText(a)[..la] == Label(a.kind) && KeyText(b)[..lb] == Label(b.kind);
      assert Label(a.kind) == Label(b.kind);
      assert KeyText(a)[la + 1..] == a.visible && KeyText(b)[lb + 1..] == b.visible;
    }
  }

  datatype Device = Device(kind: Kind, id: nat, name: string, visible: string) {
    function Key(): Key {
      KeyOf(kind, visible)
    }
  }

  /** Two devices are the same to the scheduler exactly if they have the same vendor and the same visible name; the ID
      and the name on the board do not matter. */
  lemma SameKeyMeaning(d: Device, e: Device)
    ensures KeyText(d.Key()) == KeyText(e.Key()) <==> d.kind == e.kind && d.visible == e.visible
    ensures d.kind == Nvidia ==> KeyText(d.Key()) == "nv:" + d.visible
    ensures d.kind == Ascend ==> KeyText(d.Key()) == "asc:" + d.visible
    ensures d.kind == Mthreads ==> KeyText(d.Key()) == "mtt:" + d.visible
    ensures d.kind == Metax ==> KeyText(d.Key()) == "mx:" + d.visible
    ensures d.kind == Ppu ==> KeyText(d.Key()) == "ppu:" + d.visible
    ensures d.kind == Hcu ==> KeyText(d.Key()) == "hcu:" + d.visible
  {
    KeyTextIsInjective(d.Key(), e.Key());
  }

  function Keys(devices: seq<Device>): set<Key> {
    set d | d in devices :: d.Key()
  }

  predicate DistinctKeys(devices: seq<Device>) {
    forall i, j | 0 <= i < j < |devices| :: devices[i].Key() != devices[j].Key()
  }

  /** A device whose status is absent or anything but "idle" is not given to a job. */
  function NotIdle(devices: seq<Device>, status: map<Key, string>): set<Key> {
    set d | d in devices && (d.Key() !in status || status[d.Key()] != "idle") :: d.Key()
  }

  predicate NoDuplicates<T(==)>(s: seq<T>) {
    forall i, j | 0 <= i < j < |s| :: s[i] != s[j]
  }

  lemma PriorityIsTotal(kind: Kind)
    ensures kind in PRIORITY && NoDuplicates(PRIORITY)
  {
    assert PRIORITY[0] == Nvidia && PRIORITY[1] == Ascend && PRIORITY[2] == Mthreads;
    assert PRIORITY[3] == Metax && PRIORITY[4] == Ppu && PRIORITY[5] == Hcu;
  }

  datatype Submission = Submission(
    command: seq<string>,
    count: nat,
    deviceIds: Option<seq<nat>>,
    excludeIds: seq<nat>,
    kind: Option<Kind>,
    timeLimit: Option<nat>,
    script: Option<string>)

  datatype State = Pending | Running | Completed | Failed | Cancelled | TimedOut {
    predicate Terminal() {
      !Pending? && !Running?
    }
  }

  datatype Outcome = Outcome(state: State, exitCode: int, finishedAt: nat, error: Option<string>)

  /** src/executor.rs: the outcome recorded for a job whose worker gave none. */
  function Failure(message: string, now: nat): Outcome {
    Outcome(Failed, 1, now, Some(message))
  }

  const DISAPPEARED := "executor worker disappeared without an exit result"

  function Revocation(now: nat): Outcome {
    Outcome(Cancelled, 130, now, None)
  }

  datatype Job = Job(
    id: nat,
    owner: nat,
    spec: Submission,
    state: State,
    devices: seq<Device>,
    submittedAt: nat,
    startedAt: Option<nat>,
    result: Option<Outcome>)
  {
    function Finish(outcome: Outcome): Job {
      this.(state := outcome.state, result := Some(outcome))
    }

    function Start(granted: seq<Device>, now: nat): Job {
      this.(devices := granted, state := Running, startedAt := Some(now))
    }
  }

  function NewJob(id: nat, owner: nat, spec: Submission, now: nat): Job {
    Job(id, owner, spec, Pending, [], now, None, None)
  }

  /** Job IDs are 64-bit and issued by a checked increment. */
  const MAX_ID: nat := 0xFFFF_FFFF_FFFF_FFFF

  const HISTORY_RETENTION_SECS: nat := 7 * 24 * 60 * 60

  /** Saturating subtraction, so a result from the future never expires. */
  predicate Expired(job: Job, now: nat) {
    job.state.Terminal() && job.result.Some?
    && now - job.result.value.finishedAt >= HISTORY_RETENTION_SECS
  }

  type Byte = b: nat | b < 256
}
