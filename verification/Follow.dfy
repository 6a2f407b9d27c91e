/** Following a job's log in the foreground (src/cli.rs:494-538, 576-595; src/daemon.rs:190-205): what the client
    prints while the rest of the system runs on. */
module Following {
  import opened Model
  import opened Cancellation
  import opened Effects
  import opened Guarantees
  import opened Invariants
  import opened Logs
  import opened Machine
  import opened Platforms

  // ----- The system around the client -----

  /** What the daemon, the workers and everyone else do at a moment, in a world. */
  type Others = (nat, World) -> Option<Step>

  function LogOf(w: World, id: nat): seq<Byte> {
    var name := FileName(id, LogFile);
    if name in w.files && w.files[name].Text? then w.files[name].bytes else []
  }

  predicate LogKept(w: World, u: World, id: nat) {
    FileName(id, LogFile) in w.files ==> FileName(id, LogFile) in u.files
  }

  /** One moment: any step of the machine, except that this log is not cleaned away. */
  function Next(others: Others, id: nat, t: nat, w: World): World {
    match others(t, w)
    case None => w
    case Some(step) => if Enabled(w, step) && LogKept(w, Apply(w, step), id) then Apply(w, step) else w
  }

  function Elapse(others: Others, id: nat, t: nat, w: World, n: nat): World
    decreases n
  {
    if n == 0 then w else Elapse(others, id, t + 1, Next(others, id, t, w), n - 1)
  }

  ghost predicate RunsTo(w: World, steps: seq<Step>, u: World) {
    IsRun(w, steps) && After(w, steps) == u
  }

  lemma ThenRun(w: World, a: seq<Step>, u: World, b: seq<Step>, v: World)
    requires RunsTo(w, a, u) && RunsTo(u, b, v)
    ensures RunsTo(w, a + b, v)
  {
    hide Enabled, Apply;
    RunConcat(w, a, b);
  }

  lemma FirstStep(w: World, step: Step)
    requires Enabled(w, step)
    ensures RunsTo(w, [step], Apply(w, step))
  {
    hide Enabled, Apply;
    RunStep(w, [], step);
    assert [] + [step] == [step];
  }

  /** A run leads from one world to the other, and the log has only grown at its end. */
  ghost predicate LeadsTo(w: World, u: World, id: nat) {
    && (exists steps: seq<Step> :: RunsTo(w, steps, u))
    && LogKept(w, u, id) && LogOf(w, id) <= LogOf(u, id)
  }

  lemma LeadsToItself(w: World, id: nat)
    ensures LeadsTo(w, w, id)
  {
    assert RunsTo(w, [], w);
  }

  lemma LeadsOn(u: World, v: World, w: World, id: nat)
    requires LeadsTo(u, v, id) && LeadsTo(v, w, id)
    ensures LeadsTo(u, w, id)
  {
    hide RunsTo, LogOf;
    var a: seq<Step> :| RunsTo(u, a, v);
    var b: seq<Step> :| RunsTo(v, b, w);
    ThenRun(u, a, v, b, w);
  }

  lemma LogStep(w: World, step: Step, id: nat)
    requires Enabled(w, step) && LogKept(w, Apply(w, step), id)
    ensures LogOf(w, id) <= LogOf(Apply(w, step), id)
  {
  }

  lemma StepLeads(w: World, step: Step, id: nat)
    requires Enabled(w, step) && LogKept(w, Apply(w, step), id)
    ensures LeadsTo(w, Apply(w, step), id)
  {
    hide Enabled, Apply, LogOf, RunsTo;
    LogStep(w, step, id);
    FirstStep(w, step);
  }

  /** A log that is not cleaned away only grows at its end, while the system runs on. */
  lemma {:induction false} LogGrows(others: Others, id: nat, t: nat, w: World, n: nat)
    ensures LeadsTo(w, Elapse(others, id, t, w, n), id)
    decreases n
  {
    hide Enabled, Apply, LeadsTo, LogKept;
    LeadsToItself(w, id);
    if n > 0 {
      var next := Next(others, id, t, w);
      if next != w { StepLeads(w, others(t, w).value, id); }
      LogGrows(others, id, t + 1, next, n - 1);
      LeadsOn(w, next, Elapse(others, id, t, w, n), id);
    }
  }

  lemma LeadsToReachable(w: World, u: World, id: nat)
    requires Reachable(w) && LeadsTo(w, u, id)
    ensures Reachable(u)
  {
    hide Reachable, LogOf, LogKept, IsRun, After;
    var steps: seq<Step> :| RunsTo(w, steps, u);
    RunIsReachable(w, steps);
  }

  /** A log that is final is the same wherever the run leads. */
  lemma FinalLogIsComplete(w: World, u: World, id: nat)
    requires LogIsFinal(w, id) && LeadsTo(w, u, id)
    ensures LogOf(u, id) == LogOf(w, id)
  {
    hide Enabled, Apply;
    var steps: seq<Step> :| RunsTo(w, steps, u);
    assert IsRun(w, steps) && SameOrGone(w, After(w, steps), id);
  }

  // ----- The daemon's answers -----

  const LOG_CHUNK: nat := 64 * 1024

  /** The daemon answers between two of its operations, and only about a job it knows. */
  function Lookup(w: World, id: nat): Option<Job> {
    if AtPhase(w, Idle) && id in w.holder.d.ledger.jobs then Some(w.holder.d.ledger.jobs[id]) else None
  }

  /** One reply: at most a chunk, from the offset on; nothing past the end or without a log. */
  function LogChunk(log: seq<Byte>, offset: nat): (bytes: seq<Byte>)
    ensures offset <= |log| ==> log[..offset] + bytes <= log
    ensures bytes == [] <==> |log| <= offset
    ensures offset <= |log| ==> |bytes| == if |log| - offset <= 65536 then |log| - offset else 65536
  {
    if |log| <= offset then []
    else if |log| <= offset + LOG_CHUNK then
      assert log[..offset] + log[offset..] == log;
      log[offset..]
    else
      assert log[..offset] + log[offset..offset + LOG_CHUNK] == log[..offset + LOG_CHUNK];
      log[offset..offset + LOG_CHUNK]
  }

  /** What a cancellation request makes the daemon do, by what happens to its write. */
  function CancelStep(job: Job, now: nat, fault: Fault): Step {
    match job.state
    case Pending => CancelPending(job.id, now, SaveOf(fault))
    case Running => CancelRunning(job.id, LeftOf(fault, CancelFile))
    case _ => CancelFinished(job.id)
  }

  /** Its answer: an error exactly if there was something to write and the write failed. */
  predicate CancelIsOk(job: Job, fault: Fault) {
    job.state.Terminal() || fault.Works?
  }

  /** What the daemon has done about the request: a pending job is cancelled now, in memory, and in the file if the
      write got as far as the rename; a running one is told by its cancel file; a finished one stays as it is. */
  ghost predicate CancelDone(w: World, id: nat, now: nat, fault: Fault, u: World)
    requires w.holder.Serving? && id in w.holder.d.ledger.jobs
  {
    var ledger := w.holder.d.ledger;
    var job := ledger.jobs[id];
    match job.state
    case Pending =>
      var cancelled := Job(id, job.owner, job.spec, Cancelled, job.devices, job.submittedAt, job.startedAt,
                           Some(Outcome(Cancelled, 130, now, None)));
      && u.holder == Serving(w.holder.d.(ledger := ledger.(jobs := ledger.jobs[id := cancelled])))
      && u.durable == (if Renames(fault) then ledger.(jobs := ledger.jobs[id := cancelled]) else w.durable)
      && u.files == w.files
    case Running =>
      && u.holder == w.holder && u.durable == w.durable
      && (FileName(id, CancelFile) in u.files <==> FileName(id, CancelFile) in w.files || Renames(fault))
    case _ => u == w
  }

  lemma CancelLeads(w: World, id: nat, now: nat, fault: Fault)
    requires Reachable(w) && Lookup(w, id).Some?
    ensures var step := CancelStep(Lookup(w, id).value, now, fault);
            && Enabled(w, step) && LeadsTo(w, Apply(w, step), id)
            && CancelDone(w, id, now, fault, Apply(w, step))
  {
    hide Reachable, LeadsTo, WellFormed;
    RecordsAreWellFormed(w);
    var step := CancelStep(Lookup(w, id).value, now, fault);
    CancelIsDone(w, id, now, fault);
    assert LogKept(w, Apply(w, step), id);
    StepLeads(w, step, id);
  }

  lemma CancelIsDone(w: World, id: nat, now: nat, fault: Fault)
    requires Lookup(w, id).Some? && Lookup(w, id).value.id == id
    ensures var step := CancelStep(Lookup(w, id).value, now, fault);
            && Enabled(w, step) && CancelDone(w, id, now, fault, Apply(w, step))
            && w.files.Keys <= Apply(w, step).files.Keys
  {
    hide Enabled, Apply, CancelDone;
    match Lookup(w, id).value.state
    case Pending => PendingIsCancelled(w, id, now, fault);
    case Running => RunningIsTold(w, id, now, fault);
    case _ => FinishedIsLeft(w, id, now, fault);
  }

  lemma PendingIsCancelled(w: World, id: nat, now: nat, fault: Fault)
    requires AtPhase(w, Idle) && HasJob(w, id, Pending) && w.holder.d.ledger.jobs[id].id == id
    ensures Enabled(w, CancelPending(id, now, SaveOf(fault)))
    ensures var u := Apply(w, CancelPending(id, now, SaveOf(fault)));
            CancelDone(w, id, now, fault, u) && w.files.Keys <= u.files.Keys
  {
    hide Enabled, Apply;
    CancelApplies(w, id, now, SaveOf(fault));
  }

  lemma RunningIsTold(w: World, id: nat, now: nat, fault: Fault)
    requires AtPhase(w, Idle) && HasJob(w, id, Running)
    ensures Enabled(w, CancelRunning(id, LeftOf(fault, CancelFile)))
    ensures var u := Apply(w, CancelRunning(id, LeftOf(fault, CancelFile)));
            CancelDone(w, id, now, fault, u) && w.files.Keys <= u.files.Keys
  {
    hide Enabled, Apply;
    CancelFileEffect(w, id, LeftOf(fault, CancelFile));
  }

  lemma FinishedIsLeft(w: World, id: nat, now: nat, fault: Fault)
    requires AtPhase(w, Idle) && id in w.holder.d.ledger.jobs && w.holder.d.ledger.jobs[id].state.Terminal()
    ensures Enabled(w, CancelFinished(id))
    ensures var u := Apply(w, CancelFinished(id)); CancelDone(w, id, now, fault, u) && w.files.Keys <= u.files.Keys
  {
    hide Enabled, Apply;
    CancelFinishedEffect(w, id);
  }

  // ----- The client -----

  /** What the client meets, moment by moment: whether a request gets through, whether an interrupt has been seen,
      what happens to the daemon's write for a cancellation, and whether standard output takes a chunk or fails after
      some of its bytes. */
  datatype Outside = Outside(
    reaches: nat -> bool,
    interrupted: nat -> bool,
    disk: nat -> Fault,
    output: nat -> Option<nat>)

  datatype FollowResult = ExitedWith(code: int) | Unanswered | CancelRefused | OutputFailed

  datatype PrintResult = More | NoMore | NoAnswer | NotWritten

  predicate Answered(w: World, id: nat, outside: Outside, t: nat) {
    outside.reaches(t) && Lookup(w, id).Some?
  }

  lemma AnsweredMeaning(w: World, id: nat, outside: Outside, t: nat)
    ensures Answered(w, id, outside, t) <==>
              outside.reaches(t) && w.holder.Serving? && w.holder.d.phase == Idle && id in w.holder.d.ledger.jobs
  {
  }

  /** What has been printed is a prefix of the log, and the offset is its length. */
  ghost predicate InStep(w: World, id: nat, printed: seq<Byte>, offset: nat) {
    offset == |printed| && printed <= LogOf(w, id)
  }

  lemma StaysInStep(w: World, u: World, id: nat, printed: seq<Byte>, offset: nat)
    requires LeadsTo(w, u, id) && InStep(w, id, printed, offset)
    ensures InStep(u, id, printed, offset)
  {
    hide LogOf, RunsTo;
  }

  /** print_log_chunk: it fails exactly when the request is not answered, or when there is something to print and
      standard output fails; then some bytes of the chunk may be out, and the offset stays. Nothing more means that
      the whole log of this moment has been printed. */
  method PrintLogChunk(w: World, id: nat, outside: Outside, t: nat, printed: seq<Byte>, offset: nat)
    returns (r: PrintResult, printed': seq<Byte>, offset': nat)
    requires InStep(w, id, printed, offset)
    ensures r.NoAnswer? <==> !Answered(w, id, outside, t)
    ensures r.NoMore? <==> Answered(w, id, outside, t) && printed == LogOf(w, id)
    ensures r.NotWritten? <==> Answered(w, id, outside, t) && printed != LogOf(w, id) && outside.output(t).Some?
    ensures printed <= printed' <= LogOf(w, id)
    ensures r.More? ==> |printed| < |printed'| && InStep(w, id, printed', offset')
    ensures r.More? ==>
              |printed'| == if |LogOf(w, id)| - |printed| <= 65536 then |LogOf(w, id)| else |printed| + 65536
    ensures r.NoAnswer? <==>
              !(outside.reaches(t) && w.holder.Serving? && w.holder.d.phase == Idle && id in w.holder.d.ledger.jobs)
    ensures r.NoMore? || r.NoAnswer? ==> printed' == printed && offset' == offset
    ensures r.NotWritten? ==> offset' == offset && |printed'| <= |printed| + outside.output(t).value
  {
    if !Answered(w, id, outside, t) { return NoAnswer, printed, offset; }
    var log := LogOf(w, id);
    var bytes := LogChunk(log, offset);
    assert log[..offset] == printed && (|log| <= offset ==> printed == log);
    if bytes != [] && outside.output(t).Some? {
      var n := outside.output(t).value;
      var taken := if n < |bytes| then bytes[..n] else bytes;
      assert printed + taken <= printed + bytes;
      return NotWritten, printed + taken, offset;
    }
    return if bytes == [] then NoMore else More, printed + bytes, offset + |bytes|;
  }

  /** Up to sixteen chunks, at successive moments; the worlds after them lead on from the first. */
  method Drain(others: Others, id: nat, outside: Outside, t: nat, w: World, printed: seq<Byte>, offset: nat)
    returns (r: PrintResult, t': nat, w': World, printed': seq<Byte>, offset': nat)
    requires InStep(w, id, printed, offset)
    ensures t <= t' && LeadsTo(w, w', id) && w' == Elapse(others, id, t, w, t' - t)
    ensures printed <= printed' <= LogOf(w', id)
    ensures r.More? || r.NoMore? ==> InStep(w', id, printed', offset')
    ensures r.More? ==> |printed| + 16 <= |printed'|
    ensures r.NoMore? ==> printed' == LogOf(w', id) && Answered(w', id, outside, t')
    ensures r.NoAnswer? ==> !Answered(w', id, outside, t')
    ensures r.NotWritten? ==> Answered(w', id, outside, t') && outside.output(t').Some?
  {
    hide LogOf, LeadsTo, Next, Lookup, Answered;
    r, t', w', printed', offset' := More, t, w, printed, offset;
    LeadsToItself(w, id);
    var k := 0;
    while k < 16
      invariant 0 <= k <= 16 && r.More? && |printed| + k <= |printed'|
      invariant t <= t' && LeadsTo(w, w', id) && w' == Elapse(others, id, t, w, t' - t)
      invariant printed <= printed' && InStep(w', id, printed', offset')
    {
      var wait: nat :| 0 <= wait;
      var later := Elapse(others, id, t', w', wait);
      LogGrows(others, id, t', w', wait);
      StaysInStep(w', later, id, printed', offset');
      LeadsOn(w, w', later, id);
      ElapseMore(others, id, t, w, t' - t, wait);
      t', w' := t' + wait, later;
      r, printed', offset' := PrintLogChunk(w', id, outside, t', printed', offset');
      if !r.More? { return; }
      k := k + 1;
    }
  }

  lemma {:induction false} ElapseMore(others: Others, id: nat, t: nat, w: World, n: nat, m: nat)
    ensures Elapse(others, id, t, w, n + m) == Elapse(others, id, t + n, Elapse(others, id, t, w, n), m)
    decreases n
  {
    hide Next;
    if n > 0 { ElapseMore(others, id, t + 1, Next(others, id, t, w), n - 1, m); }
  }

  /** The world u can be met at the moment t: the others move, and this client may have a cancellation handled. */
  ghost predicate Occurs(others: Others, id: nat, outside: Outside, start: nat, first: World, t: nat, u: World) {
    start <= t && exists worlds: seq<World> :: History(others, id, outside, start, first, worlds, t, u)
  }

  ghost predicate History(others: Others, id: nat, outside: Outside, start: nat, first: World, worlds: seq<World>,
                          t: nat, u: World) {
    && start <= t && |worlds| == t - start + 1 && worlds[0] == first && worlds[t - start] == u
    && forall k | 0 <= k < t - start :: Moves(others, id, outside, start + k, worlds[k], worlds[k + 1])
  }

  ghost predicate Moves(others: Others, id: nat, outside: Outside, t: nat, w: World, u: World) {
    u == Next(others, id, t, w)
    || (Lookup(w, id).Some? && var step := CancelStep(Lookup(w, id).value, t, outside.disk(t));
                               Enabled(w, step) && u == Apply(w, step))
  }

  lemma OccursFirst(others: Others, id: nat, outside: Outside, start: nat, first: World)
    ensures Occurs(others, id, outside, start, first, start, first)
  {
    assert History(others, id, outside, start, first, [first], start, first);
  }

  lemma OccursNext(others: Others, id: nat, outside: Outside, start: nat, first: World, t: nat, w: World, u: World)
    requires Occurs(others, id, outside, start, first, t, w) && Moves(others, id, outside, t, w, u)
    ensures Occurs(others, id, outside, start, first, t + 1, u)
  {
    hide Moves;
    var worlds: seq<World> :| History(others, id, outside, start, first, worlds, t, w);
    assert History(others, id, outside, start, first, worlds + [u], t + 1, u);
  }

  lemma {:induction false} OccursLater(others: Others, id: nat, outside: Outside, start: nat, first: World,
                                       t: nat, w: World, n: nat)
    requires Occurs(others, id, outside, start, first, t, w)
    ensures Occurs(others, id, outside, start, first, t + n, Elapse(others, id, t, w, n))
    decreases n
  {
    hide Occurs, Next;
    if n > 0 {
      OccursNext(others, id, outside, start, first, t, w, Next(others, id, t, w));
      OccursLater(others, id, outside, start, first, t + 1, Next(others, id, t, w), n - 1);
    }
  }

  /** Whatever is met: the job has ended by the moment `end`, and its log stays within `bound` bytes. */
  ghost predicate EndsBy(others: Others, id: nat, outside: Outside, start: nat, first: World, end: nat, bound: nat) {
    forall t: nat, u: World | Occurs(others, id, outside, start, first, t, u) ::
      && (end <= t && Lookup(u, id).Some? ==> Lookup(u, id).value.result.Some?)
      && |LogOf(u, id)| <= bound
  }

  /** What the client knows when it returns an exit code. It is that of the result it has seen, and that is the result
      the job's own worker wrote if it wrote one. All of the log of the last moment has been printed. And this is all
      that will ever be there exactly if, when the result was seen, the job was not cancelled in memory only and nothing
      without a lock could still write to it; and so, too, at the last moment. */
  ghost predicate FollowedToTheEnd(seen: World, last: World, id: nat, code: int, printed: seq<Byte>) {
    && ShowsResult(seen, id) && seen.holder.Serving? && seen.holder.d.phase == Idle
    && id in seen.holder.d.ledger.jobs && seen.holder.d.ledger.jobs[id].result.Some?
    && seen.holder.d.ledger.jobs[id].result.value.exitCode == code
    && (seen.holder.d.ledger.jobs[id].startedAt.Some? && id in seen.reports ==> seen.reports[id].exitCode == code)
    && LeadsTo(seen, last, id) && printed == LogOf(last, id)
    && (FileName(id, LogFile) in last.files ==>
          last.files[FileName(id, LogFile)] == Text(printed) || !last.files[FileName(id, LogFile)].Text?)
    && (FileName(id, LogFile) !in last.files ==> printed == [])
    && FinalExactlyIf(seen, id, !OnlyCancelledInMemory(seen, id) && !LateWriter(seen, id))
    && (LogIsFinal(seen, id) ==> printed == LogOf(seen, id))
    && (ShowsResult(last, id) ==>
          FinalExactlyIf(last, id, !OnlyCancelledInMemory(last, id) && !LateWriter(last, id)))
  }

  predicate ShowsResult(w: World, id: nat) {
    Lookup(w, id).Some? && Lookup(w, id).value.result.Some?
  }

  lemma ShownResultIsExact(w: World, id: nat)
    requires Reachable(w) && ShowsResult(w, id)
    ensures var job := Lookup(w, id).value;
            job.startedAt.Some? && id in w.reports ==> job.result == Some(w.reports[id])
  {
    hide Reachable, WellFormed;
    RecordsAreWellFormed(w);
    VisibleIsTerminal(w, id);
    ResultsAreExact(w, Lookup(w, id).value);
  }

  lemma PrintedIsTheFile(w: World, id: nat, printed: seq<Byte>)
    requires printed == LogOf(w, id)
    ensures FileName(id, LogFile) in w.files ==>
              w.files[FileName(id, LogFile)] == Text(printed) || !w.files[FileName(id, LogFile)].Text?
    ensures FileName(id, LogFile) !in w.files ==> printed == []
  {
  }

  lemma DrainedAfterResult(seen: World, last: World, id: nat, printed: seq<Byte>)
    requires Reachable(seen) && ShowsResult(seen, id) && LeadsTo(seen, last, id) && printed == LogOf(last, id)
    ensures FollowedToTheEnd(seen, last, id, Lookup(seen, id).value.result.value.exitCode, printed)
  {
    hide Reachable, LeadsTo, LogIsFinal, ProgramLogCanGrow, LateWriter, LogOf;
    PrintedIsTheFile(last, id, printed);
    LeadsToReachable(seen, last, id);
    ShownResultIsExact(seen, id);
    LogIsFinalExactlyWhen(seen, id);
    if LogIsFinal(seen, id) { FinalLogIsComplete(seen, last, id); }
    if ShowsResult(last, id) { LogIsFinalExactlyWhen(last, id); }
  }

  /** The cancellation of this client, if it was handled: the world in which it was, and when. */
  datatype Handled = NotHandled | HandledIn(w: World, t: nat)

  /** It was one step of the machine, between the first world and the last. */
  ghost predicate CancelTook(handled: Handled, first: World, last: World, id: nat, outside: Outside) {
    handled.HandledIn? ==>
      && Answered(handled.w, id, outside, handled.t)
      && outside.reaches(handled.t) && handled.w.holder.Serving? && id in handled.w.holder.d.ledger.jobs
      && var step := CancelStep(Lookup(handled.w, id).value, handled.t, outside.disk(handled.t));
         && Enabled(handled.w, step) && LeadsTo(first, handled.w, id) && LeadsTo(Apply(handled.w, step), last, id)
         && CancelDone(handled.w, id, handled.t, outside.disk(handled.t), Apply(handled.w, step))
  }

  /** The write for the cancellation failed. */
  ghost predicate CancelWentWrong(handled: Handled, id: nat, outside: Outside) {
    && handled.HandledIn? && handled.w.holder.Serving? && id in handled.w.holder.d.ledger.jobs
    && handled.w.holder.d.ledger.jobs[id].state in {Pending, Running} && outside.disk(handled.t) != Works
  }

  /** Why the client stopped; the reasons exclude each other. */
  ghost predicate StoppedBecause(r: FollowResult, seen: World, last: World, now: nat, handled: Handled, id: nat,
                                 outside: Outside, printed: seq<Byte>) {
    match r
    case ExitedWith(code) => Answered(last, id, outside, now) && FollowedToTheEnd(seen, last, id, code, printed)
    case Unanswered =>
      !(outside.reaches(now) && last.holder.Serving? && last.holder.d.phase == Idle && id in last.holder.d.ledger.jobs)
    case OutputFailed => Answered(last, id, outside, now) && outside.output(now).Some?
    case CancelRefused => CancelWentWrong(handled, id, outside)
  }

  lemma EndIsNear(others: Others, id: nat, outside: Outside, start: nat, first: World, end: nat, bound: nat,
                  t: nat, w: World)
    requires EndsBy(others, id, outside, start, first, end, bound) && Occurs(others, id, outside, start, first, t, w)
    ensures |LogOf(w, id)| <= bound
    ensures end <= t && Lookup(w, id).Some? ==> Lookup(w, id).value.result.Some?
  {
  }

  /** Time goes by while a request is under way. */
  lemma Waits(others: Others, id: nat, outside: Outside, start: nat, first: World, t: nat, w: World, n: nat,
              printed: seq<Byte>, offset: nat)
    requires Occurs(others, id, outside, start, first, t, w) && LeadsTo(first, w, id) && InStep(w, id, printed, offset)
    ensures var u := Elapse(others, id, t, w, n);
            && Occurs(others, id, outside, start, first, t + n, u) && LeadsTo(first, u, id) && LeadsTo(w, u, id)
            && InStep(u, id, printed, offset)
  {
    hide Occurs, LeadsTo, InStep, Next;
    OccursLater(others, id, outside, start, first, t, w, n);
    LogGrows(others, id, t, w, n);
    LeadsOn(first, w, Elapse(others, id, t, w, n), id);
    StaysInStep(w, Elapse(others, id, t, w, n), id, printed, offset);
  }

  /** The cancellation request as the daemon handles it at the moment t. */
  method RequestCancel(others: Others, id: nat, outside: Outside, ghost start: nat, ghost first: World,
                       t: nat, w: World, ghost printed: seq<Byte>, ghost offset: nat)
    returns (ok: bool, w': World)
    requires Reachable(first) && LeadsTo(first, w, id) && Occurs(others, id, outside, start, first, t, w)
    requires Answered(w, id, outside, t) && InStep(w, id, printed, offset)
    ensures ok <==> !CancelWentWrong(HandledIn(w, t), id, outside)
    ensures CancelTook(HandledIn(w, t), first, w', id, outside) && LeadsTo(first, w', id)
    ensures Occurs(others, id, outside, start, first, t + 1, w') && InStep(w', id, printed, offset)
  {
    hide Occurs, LeadsTo, InStep, Reachable, CancelStep, Enabled, Apply;
    var step := CancelStep(Lookup(w, id).value, t, outside.disk(t));
    LeadsToReachable(first, w, id);
    CancelLeads(w, id, t, outside.disk(t));
    w' := Apply(w, step);
    ok := CancelIsOk(Lookup(w, id).value, outside.disk(t));
    LeadsToItself(w', id);
    LeadsOn(first, w, w', id);
    OccursNext(others, id, outside, start, first, t, w, w');
    StaysInStep(w, w', id, printed, offset);
  }

  lemma CancelTookStays(handled: Handled, first: World, w: World, u: World, id: nat, outside: Outside)
    requires CancelTook(handled, first, w, id, outside) && LeadsTo(w, u, id)
    ensures CancelTook(handled, first, u, id, outside)
  {
    hide LeadsTo, CancelStep, Enabled, Apply;
    if handled.HandledIn? {
      var step := CancelStep(Lookup(handled.w, id).value, handled.t, outside.disk(handled.t));
      LeadsOn(Apply(handled.w, step), w, u, id);
    }
  }

  /** Some time goes by. */
  method Pass(others: Others, id: nat, outside: Outside, ghost start: nat, ghost first: World, t: nat, w: World,
              ghost printed: seq<Byte>, ghost offset: nat, ghost handled: Handled)
    returns (t': nat, w': World)
    requires Occurs(others, id, outside, start, first, t, w) && LeadsTo(first, w, id) && InStep(w, id, printed, offset)
    requires CancelTook(handled, first, w, id, outside)
    ensures t <= t' && Occurs(others, id, outside, start, first, t', w') && LeadsTo(first, w', id)
    ensures InStep(w', id, printed, offset) && printed <= LogOf(w', id)
    ensures CancelTook(handled, first, w', id, outside)
  {
    hide Occurs, LeadsTo, InStep, LogOf, CancelTook, Elapse;
    var wait: nat :| 0 <= wait;
    Waits(others, id, outside, start, first, t, w, wait, printed, offset);
    t', w' := t + wait, Elapse(others, id, t, w, wait);
    CancelTookStays(handled, first, w, w', id, outside);
    InStepMeans(w', id, printed, offset);
  }

  /** At least a moment goes by. */
  method Sleep(others: Others, id: nat, outside: Outside, ghost start: nat, ghost first: World, t: nat, w: World,
               ghost printed: seq<Byte>, ghost offset: nat, ghost handled: Handled)
    returns (t': nat, w': World)
    requires Occurs(others, id, outside, start, first, t, w) && LeadsTo(first, w, id) && InStep(w, id, printed, offset)
    requires CancelTook(handled, first, w, id, outside)
    ensures t < t' && Occurs(others, id, outside, start, first, t', w') && LeadsTo(first, w', id)
    ensures InStep(w', id, printed, offset) && CancelTook(handled, first, w', id, outside)
  {
    hide Occurs, LeadsTo, InStep, LogOf, CancelTook, Elapse;
    Waits(others, id, outside, start, first, t, w, 1, printed, offset);
    w' := Elapse(others, id, t, w, 1);
    CancelTookStays(handled, first, w, w', id, outside);
    t', w' := Pass(others, id, outside, start, first, t + 1, w', printed, offset, handled);
  }

  /** Drain, with what the client keeps in mind meanwhile. */
  method DrainOn(others: Others, id: nat, outside: Outside, ghost start: nat, ghost first: World, t: nat, w: World,
                 printed: seq<Byte>, offset: nat, ghost handled: Handled)
    returns (r: PrintResult, t': nat, w': World, printed': seq<Byte>, offset': nat)
    requires Occurs(others, id, outside, start, first, t, w) && LeadsTo(first, w, id) && InStep(w, id, printed, offset)
    requires CancelTook(handled, first, w, id, outside)
    ensures t <= t' && Occurs(others, id, outside, start, first, t', w') && LeadsTo(first, w', id) && LeadsTo(w, w', id)
    ensures CancelTook(handled, first, w', id, outside) && printed <= printed' <= LogOf(w', id)
    ensures r.More? || r.NoMore? ==> InStep(w', id, printed', offset')
    ensures r.More? ==> |printed| < |printed'|
    ensures r.NoMore? ==> printed' == LogOf(w', id) && Answered(w', id, outside, t')
    ensures r.NoAnswer? ==> !Answered(w', id, outside, t')
    ensures r.NotWritten? ==> Answered(w', id, outside, t') && outside.output(t').Some?
  {
    hide Occurs, LeadsTo, InStep, LogOf, CancelTook, Elapse, Answered;
    r, t', w', printed', offset' := Drain(others, id, outside, t, w, printed, offset);
    OccursLater(others, id, outside, start, first, t, w, t' - t);
    LeadsOn(first, w, w', id);
    CancelTookStays(handled, first, w, w', id, outside);
  }

  ghost predicate SeenInterrupt(outside: Outside, heads: seq<nat>) {
    exists k | 0 <= k < |heads| :: outside.interrupted(heads[k])
  }

  /** The moments so far at which the loop has looked for an interrupt. */
  ghost predicate HeadsOk(outside: Outside, heads: seq<nat>, start: nat, t: nat, interrupted: bool) {
    && (forall j, k | 0 <= j < k < |heads| :: heads[j] < heads[k]) && (forall k | 0 <= k < |heads| :: heads[k] < t)
    && (if heads == [] then t == start else heads[0] == start)
    && (SeenInterrupt(outside, heads) <==> interrupted)
  }

  lemma HeadAdded(outside: Outside, heads: seq<nat>, start: nat, t: nat, interrupted: bool)
    requires HeadsOk(outside, heads, start, t, interrupted)
    ensures HeadsOk(outside, heads + [t], start, t + 1, interrupted || outside.interrupted(t))
  {
    var more := heads + [t];
    assert more[|heads|] == t;
    assert forall k | 0 <= k < |heads| :: more[k] == heads[k];
  }

  lemma HeadsMean(outside: Outside, heads: seq<nat>, start: nat, t: nat, interrupted: bool)
    requires HeadsOk(outside, heads, start, t, interrupted) && heads != []
    ensures heads[0] == start && forall j, k | 0 <= j < k < |heads| :: heads[j] < heads[k]
    ensures SeenInterrupt(outside, heads) <==> interrupted
    ensures forall later: nat | t <= later :: HeadsOk(outside, heads, start, later, interrupted)
  {
  }

  lemma StartsInStep(others: Others, id: nat, outside: Outside, start: nat, first: World)
    ensures Occurs(others, id, outside, start, first, start, first) && LeadsTo(first, first, id)
    ensures InStep(first, id, [], 0) && CancelTook(NotHandled, first, first, id, outside)
    ensures HeadsOk(outside, [], start, start, false)
  {
    OccursFirst(others, id, outside, start, first);
    LeadsToItself(first, id);
  }

  lemma InStepMeans(w: World, id: nat, printed: seq<Byte>, offset: nat)
    requires InStep(w, id, printed, offset)
    ensures offset == |printed| && printed <= LogOf(w, id)
  {
  }

  /** follow: the result is looked up before the log is drained. heads are the moments at which the loop looked for an
      interrupt. At every return what was printed is a prefix of the log, nothing lost and nothing repeated; a
      cancellation is requested once exactly if an interrupt was seen at one of those moments, and is a step of the
      machine; and each return has its own reason. The loop ends because the job does and the log is bounded. */
  method Follow(others: Others, id: nat, outside: Outside, start: nat, first: World, ghost end: nat, ghost bound: nat)
    returns (r: FollowResult, printed: seq<Byte>, cancels: nat, seen: World, last: World, now: nat, heads: seq<nat>,
             handled: Handled)
    requires Reachable(first) && EndsBy(others, id, outside, start, first, end, bound)
    ensures start <= now && LeadsTo(first, last, id) && printed <= LogOf(last, id)
    ensures heads != [] && heads[0] == start && forall j, k | 0 <= j < k < |heads| :: heads[j] < heads[k]
    ensures cancels == if SeenInterrupt(outside, heads) then 1 else 0
    ensures CancelTook(handled, first, last, id, outside) && (handled.HandledIn? ==> cancels == 1)
    ensures cancels == 1 && r != Unanswered ==> handled.HandledIn?
    ensures StoppedBecause(r, seen, last, now, handled, id, outside, printed)
    ensures CancelWentWrong(handled, id, outside) ==> r == CancelRefused
  {
    hide LogOf, LeadsTo, Lookup, EndsBy, Occurs, InStep, Elapse, Next, CancelTook, FollowedToTheEnd, SeenInterrupt,
         HeadsOk, Reachable;
    var t: nat, offset: nat, cancelled := start, 0, false;
    last, printed, cancels, heads, handled := first, [], 0, [], NotHandled;
    seen, now := first, start;
    var w := first;
    StartsInStep(others, id, outside, start, first);
    while true
      invariant start <= t && Occurs(others, id, outside, start, first, t, w) && LeadsTo(first, w, id)
      invariant InStep(w, id, printed, offset)
      invariant cancels == (if cancelled then 1 else 0) && (cancelled <==> handled.HandledIn?)
      invariant !CancelWentWrong(handled, id, outside)
      invariant CancelTook(handled, first, w, id, outside) && HeadsOk(outside, heads, start, t, cancelled)
      decreases if t < end then end - t else 0, bound - |printed|
    {
      ghost var head := t;
      HeadAdded(outside, heads, start, t, cancelled);
      heads := heads + [t];
      HeadsMean(outside, heads, start, head + 1, cancelled || outside.interrupted(head));
      if outside.interrupted(t) && !cancelled {
        cancels := 1;
        t, w := Pass(others, id, outside, start, first, t, w, printed, offset, handled);
        now, last := t, w;
        AnsweredMeaning(w, id, outside, t);
        if !Answered(w, id, outside, t) { return Unanswered, printed, cancels, seen, last, now, heads, handled; }
        handled := HandledIn(w, t);
        var ok: bool;
        ok, w := RequestCancel(others, id, outside, start, first, t, w, printed, offset);
        t := t + 1;
        now, last, cancelled := t, w, true;
        InStepMeans(w, id, printed, offset);
        if !ok { return CancelRefused, printed, cancels, seen, last, now, heads, handled; }
      }
      t, w := Pass(others, id, outside, start, first, t, w, printed, offset, handled);
      now, last, seen := t, w, w;
      AnsweredMeaning(w, id, outside, t);
      if !Answered(w, id, outside, t) { return Unanswered, printed, cancels, seen, last, now, heads, handled; }
      var job := Lookup(w, id).value;
      EndIsNear(others, id, outside, start, first, end, bound, t, w);
      var drained: PrintResult;
      ghost var before := printed;
      drained, t, w, printed, offset := DrainOn(others, id, outside, start, first, t, w, printed, offset, handled);
      now, last := t, w;
      AnsweredMeaning(w, id, outside, t);
      if drained.NoAnswer? { return Unanswered, printed, cancels, seen, last, now, heads, handled; }
      if drained.NotWritten? { return OutputFailed, printed, cancels, seen, last, now, heads, handled; }
      if job.result.Some? && drained.NoMore? {
        LeadsToReachable(first, seen, id);
        DrainedAfterResult(seen, last, id, printed);
        return ExitedWith(job.result.value.exitCode), printed, cancels, seen, last, now, heads, handled;
      }
      InStepMeans(w, id, printed, offset);
      EndIsNear(others, id, outside, start, first, end, bound, t, w);
      t, w := Sleep(others, id, outside, start, first, t, w, printed, offset, handled);
    }
  }
}
