/** The worker's watch over the user's command (src/executor.rs:108-126, 209-270): when it asks the command to stop,
    when it forces it, and what outcome it reports. */
module Executors {
  import opened Model

  datatype Exit = Code(code: int) | Killed(signal: int)

  datatype Status = Alive | Exited(exit: Exit) | WaitFails(error: string)

  /** What one round of the loop sees; elapsed is in milliseconds since the command was spawned. */
  datatype Look = Look(status: Status, cancelled: bool, elapsed: nat)

  type Watch = nat -> Look

  datatype Signal = Term | Kill

  /** A signal sent in some round. */
  datatype Sent = Sent(round: nat, signal: Signal)

  const GRACE_MILLIS: nat := 1000

  /** The reason to stop that one look gives. A cancellation outranks the time limit. */
  function Reason(look: Look, timeLimit: Option<nat>): Option<State> {
    if look.cancelled then Some(Cancelled)
    else if timeLimit.Some? && look.elapsed / 1000 >= timeLimit.value then Some(TimedOut)
    else None
  }

  /** In this round the command has to stop: it is cancelled, or its limit, in seconds, has passed. */
  predicate MustStop(look: Look, timeLimit: Option<nat>) {
    look.cancelled || (timeLimit.Some? && look.elapsed >= 1000 * timeLimit.value)
  }

  lemma ReasonMeaning(look: Look, timeLimit: Option<nat>)
    ensures Reason(look, timeLimit).Some? <==> MustStop(look, timeLimit)
    ensures Reason(look, timeLimit).Some? ==>
              Reason(look, timeLimit).value == if look.cancelled then Cancelled else TimedOut
  {
  }

  /** The first of n rounds in which the command has to stop, if there is one. */
  ghost predicate StopsAt(watch: Watch, timeLimit: Option<nat>, n: nat, stop: Option<nat>) {
    match stop
    case None => forall i | 0 <= i < n :: !MustStop(watch(i), timeLimit)
    case Some(k) =>
      k < n && MustStop(watch(k), timeLimit) && forall i | 0 <= i < k :: !MustStop(watch(i), timeLimit)
  }

  /** One SIGTERM, in that round; SIGKILL in every later round from one second after it. */
  ghost predicate SignalsAre(watch: Watch, stop: Option<nat>, n: nat, sent: seq<Sent>) {
    && (forall i: nat :: Sent(i, Term) in sent <==> stop == Some(i))
    && (forall i: nat :: Sent(i, Kill) in sent <==>
          stop.Some? && stop.value <= i < n && watch(i).elapsed >= watch(stop.value).elapsed + 1000)
    && (forall i, j | 0 <= i < j < |sent| :: sent[i].round < sent[j].round)
    && (stop.None? ==> sent == [])
  }

  /** What is reported of a command that was waited for in this round: why it was stopped, or else how it ended. */
  ghost predicate EndsAs(watch: Watch, n: nat, stop: Option<nat>, now: nat, outcome: Outcome) {
    match watch(n).status
    case Alive => false
    case WaitFails(error) => outcome == Outcome(Failed, 1, now, Some(error))
    case Exited(exit) =>
      if stop.Some? then
        outcome == if watch(stop.value).cancelled then Outcome(Cancelled, 130, now, None)
                   else Outcome(TimedOut, 124, now, None)
      else
        match exit
        case Code(c) => outcome == Outcome(if c == 0 then Completed else Failed, c, now, None)
        case Killed(signal) => outcome == Outcome(Failed, 128 + signal, now, None)
  }

  /** n rounds find the command alive, and the next one sees its end. */
  ghost predicate Attended(watch: Watch, timeLimit: Option<nat>, now: nat, n: nat, stop: Option<nat>, outcome: Outcome,
                           sent: seq<Sent>) {
    && (forall i | 0 <= i < n :: watch(i).status.Alive?)
    && StopsAt(watch, timeLimit, n, stop) && SignalsAre(watch, stop, n, sent) && EndsAs(watch, n, stop, now, outcome)
  }

  function ExitCode(exit: Exit): int {
    match exit
    case Code(c) => c
    case Killed(s) => 128 + s
  }

  /** The outcome: a reason latched before the end decides; otherwise the exit status does. */
  function Settled(reason: Option<State>, exit: Exit, now: nat): Outcome {
    var state := if reason.Some? then reason.value else if exit == Code(0) then Completed else Failed;
    Outcome(state, if state.Cancelled? then 130 else if state.TimedOut? then 124 else ExitCode(exit), now, None)
  }

  lemma NoSignals(watch: Watch)
    ensures SignalsAre(watch, None, 0, [])
  {
  }

  lemma SignalsStop(watch: Watch, n: nat, sent: seq<Sent>)
    requires SignalsAre(watch, None, n, sent)
    ensures SignalsAre(watch, Some(n), n + 1, sent + [Sent(n, Term)])
  {
    assert sent + [Sent(n, Term)] == [Sent(n, Term)];
  }

  lemma SignalsGoOn(watch: Watch, stop: Option<nat>, n: nat, sent: seq<Sent>)
    requires SignalsAre(watch, stop, n, sent) && (stop.Some? ==> stop.value < n)
    requires forall i | 0 <= i < |sent| :: sent[i].round < n
    ensures SignalsAre(watch, stop, n + 1,
                       if stop.Some? && watch(n).elapsed >= watch(stop.value).elapsed + GRACE_MILLIS
                       then sent + [Sent(n, Kill)] else sent)
  {
  }

  /** The loop of execute: n rounds find the command alive, and stop is the one with the first reason. last is any
      round in which the command is known to have ended. */
  method Attend(watch: Watch, timeLimit: Option<nat>, now: nat, ghost last: nat)
    returns (outcome: Outcome, sent: seq<Sent>, n: nat, stop: Option<nat>)
    requires !watch(last).status.Alive?
    ensures n <= last && Attended(watch, timeLimit, now, n, stop, outcome, sent)
  {
    hide SignalsAre;
    n, stop, sent := 0, None, [];
    NoSignals(watch);
    var termination: Option<(nat, State)> := None;
    while watch(n).status.Alive?
      invariant n <= last && forall i | 0 <= i < n :: watch(i).status.Alive?
      invariant StopsAt(watch, timeLimit, n, stop) && SignalsAre(watch, stop, n, sent)
      invariant termination.Some? <==> stop.Some?
      invariant stop.Some? ==>
                  && termination.value.0 == watch(stop.value).elapsed
                  && Reason(watch(stop.value), timeLimit) == Some(termination.value.1)
      invariant forall i | 0 <= i < |sent| :: sent[i].round < n
      decreases last - n
    {
      var look := watch(n);
      ReasonMeaning(look, timeLimit);
      if termination.None? && Reason(look, timeLimit).Some? {
        SignalsStop(watch, n, sent);
      } else {
        SignalsGoOn(watch, stop, n, sent);
      }
      if termination.None? {
        var reason := Reason(look, timeLimit);
        if reason.Some? {
          sent := sent + [Sent(n, Term)];
          termination := Some((look.elapsed, reason.value));
          stop := Some(n);
        }
      }
      if termination.Some? && look.elapsed >= termination.value.0 + GRACE_MILLIS {
        sent := sent + [Sent(n, Kill)];
      }
      n := n + 1;
      assert watch(n - 1) == look;
    }
    match watch(n).status {
      case WaitFails(error) => outcome := Failure(error, now);
      case Exited(exit) =>
        outcome := Settled(if termination.Some? then Some(termination.value.1) else None, exit, now);
    }
  }

  /** worker: whatever happens, what is reported is a terminal outcome, and which one says what happened. A
      cancellation that was there before the command starts keeps it from starting. A command that is reported as
      completed, or as failed by its own exit, was never seen cancelled nor past its limit while it was alive. */
  method Work(setupError: Option<string>, cancelledBefore: bool, spawnError: Option<string>,
              watch: Watch, timeLimit: Option<nat>, now: nat, ghost last: nat)
    returns (outcome: Outcome, sent: seq<Sent>, ghost n: nat, ghost stop: Option<nat>)
    requires !watch(last).status.Alive?
    ensures outcome.state.Terminal() && outcome.finishedAt == now
    ensures setupError.Some? ==> outcome == Outcome(Failed, 1, now, setupError) && sent == []
    ensures setupError.None? && cancelledBefore ==> outcome == Outcome(Cancelled, 130, now, None) && sent == []
    ensures setupError.None? && !cancelledBefore && spawnError.Some? ==>
              outcome == Outcome(Failed, 1, now, spawnError) && sent == []
    ensures setupError.None? && !cancelledBefore && spawnError.None? ==>
              n <= last && Attended(watch, timeLimit, now, n, stop, outcome, sent)
    ensures outcome.state.Completed? ==> outcome.exitCode == 0 && sent == []
    ensures outcome.state == Completed || (outcome.state == Failed && outcome.error.None?) ==>
              forall i | 0 <= i < n ::
                !watch(i).cancelled && (timeLimit.Some? ==> watch(i).elapsed < 1000 * timeLimit.value)
  {
    sent, n, stop := [], 0, None;
    if setupError.Some? { return Failure(setupError.value, now), [], n, stop; }
    if cancelledBefore { return Revocation(now), [], n, stop; }
    if spawnError.Some? { return Failure(spawnError.value, now), [], n, stop; }
    outcome, sent, n, stop := Attend(watch, timeLimit, now, last);
  }

  /** SIGKILL never comes without a SIGTERM at least one second earlier. */
  lemma KillOnlyAfterGrace(watch: Watch, timeLimit: Option<nat>, n: nat, stop: Option<nat>, sent: seq<Sent>, i: nat)
    requires StopsAt(watch, timeLimit, n, stop) && SignalsAre(watch, stop, n, sent) && Sent(i, Kill) in sent
    ensures exists k: nat | k < i :: Sent(k, Term) in sent && watch(i).elapsed - watch(k).elapsed >= 1000
  {
    assert Sent(stop.value, Term) in sent;
  }
}
