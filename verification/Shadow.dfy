/**
 The shadow of one run: how a recovered run is re-attached to, and how the end of a run is
 classified for the scheduler core. Times count nanoseconds.
 */
module Shadow {
  import opened Common
  import opened Jobs
  import opened SchedulerCore
  import opened SchedulerSystem
  import SchedulerBudget

  // ----- reconnect retries -----

  const SECOND := 1_000_000_000
  const WINDOW := 45 * SECOND
  const MAX_DELAY := 32 * SECOND
  const MAX_INT64 := 0x7FFF_FFFF_FFFF_FFFF

  datatype Handshake = Attached | Refused | Unreachable

  /** One attempt: how it ends, how long it takes, how late the sleep after it ends, and whether the
      run is cancelled during that sleep. */
  datatype Try = Try(handshake: Handshake, took: nat, late: nat, cancelled: bool)

  datatype Sleep = Sleep(at: int, delay: int)

  datatype Ended = Connected | GivenUp | TimedOut | Cancelled

  function Shift(n: nat): nat { if n == 0 then 1 else 2 * Shift(n - 1) }

  /** The back-off after the given attempt: 4, 8, 16 seconds and then 32. */
  function Delay(attempt: nat): int {
    var d := Shift(attempt + 2) * SECOND;
    if d > MAX_DELAY then MAX_DELAY else d
  }

  /** The first delays as numbers. */
  lemma Delays()
    ensures Delay(0) == 4 * SECOND && Delay(1) == 8 * SECOND && Delay(2) == 16 * SECOND && Delay(3) == 32 * SECOND
  {
    assert Shift(2) == 4 && Shift(3) == 8;
    assert Shift(4) == 16 && Shift(5) == 32;
  }

  /** In none of the attempts there can be does the shifted delay overflow. */
  lemma ShiftFits(attempt: nat)
    requires attempt < 4
    ensures Shift(attempt + 2) * SECOND <= MAX_INT64
  {
    assert Shift(2) == 4 && Shift(3) == 8;
    assert Shift(4) == 16 && Shift(5) == 32;
  }

  /** The back-off after each of the attempts there can be. */
  function Pause(i: nat): int
    requires i < 4
  {
    [4, 8, 16, 32][i] * 1_000_000_000
  }

  lemma PauseIsDelay(i: nat)
    requires i < 4
    ensures Pause(i) == Delay(i)
  {
    Delays();
  }

  /** The moment the i-th attempt ends when all the sleeps before it were made. */
  function EndOf(start: int, tries: nat -> Try, i: nat): int
    requires i < 4
  {
    if i == 0 then start + tries(0).took
    else EndOf(start, tries, i - 1) + Pause(i - 1) + tries(i - 1).late + tries(i).took
  }

  /** The job's lease is known to end before the given moment. */
  predicate LeaseOver(lease: Option<int>, renewal: Option<int>, t: int) {
    lease.Some? && lease.value > 0 && renewal.Some? && renewal.value > 0
    && (renewal.value + lease.value) * 1_000_000_000 < t
  }

  /** The moment lies within 45 seconds of the start and within the job's lease. */
  predicate InReach(start: int, lease: Option<int>, renewal: Option<int>, t: int) {
    t <= start + 45 * 1_000_000_000 && !LeaseOver(lease, renewal, t)
  }

  /** Every attempt fails at once, every sleep ends on time and nobody cancels. */
  ghost predicate Hopeless(tries: nat -> Try) { forall i :: tries(i) == Try(Unreachable, 0, 0, false) }

  /** After the fourth attempt no sleep ends in reach; before it, one does when no time was lost and no
      lease is in the way. */
  lemma FourthIsLast(start: int, lease: Option<int>, renewal: Option<int>, tries: nat -> Try, i: nat)
    requires i < 4
    ensures InReach(start, lease, renewal, EndOf(start, tries, i) + Pause(i)) ==> i < 3
    ensures Hopeless(tries) && !LeaseOver(lease, renewal, start + 45 * 1_000_000_000) && i < 3 ==>
              InReach(start, lease, renewal, EndOf(start, tries, i) + Pause(i))
  {
    assert EndOf(start, tries, 0) >= start;
    assert EndOf(start, tries, 1) >= EndOf(start, tries, 0) + 4 * SECOND;
    assert EndOf(start, tries, 2) >= EndOf(start, tries, 1) + 8 * SECOND;
    assert EndOf(start, tries, 3) >= EndOf(start, tries, 2) + 16 * SECOND;
  }

  /** The i-th sleep begins when the i-th attempt has ended, has the i-th delay, and ends in reach. */
  predicate InTime(sleeps: seq<Sleep>, start: int, lease: Option<int>, renewal: Option<int>, tries: nat -> Try) {
    |sleeps| <= 3
    && forall i | 0 <= i < |sleeps| ::
         sleeps[i] == Sleep(EndOf(start, tries, i), Pause(i))
         && InReach(start, lease, renewal, EndOf(start, tries, i) + Pause(i))
  }

  method BackOff(attempt: nat) returns (delay: int)
    ensures delay == Delay(attempt)
  {
    delay := Shift(attempt + 2) * SECOND;
    if delay > MAX_DELAY {
      delay := MAX_DELAY;
    }
  }

  method RetryDeadline(start: int, lease: Option<int>, renewal: Option<int>) returns (deadline: int)
    ensures forall t :: t <= deadline <==> InReach(start, lease, renewal, t)
  {
    deadline := start + WINDOW;
    if lease.Some? && lease.value > 0 {
      if renewal.Some? && renewal.value > 0 {
        var leaseEnd := (renewal.value + lease.value) * SECOND;
        if leaseEnd < deadline {
          deadline := leaseEnd;
        }
      }
    }
  }

  /** Why the loop ended after the last attempt; `next` is when a further sleep would have ended, and
      `slept` whether it was begun. */
  predicate Explains(last: Try, ended: Ended, next: bool, slept: bool) {
    match last.handshake
    case Attached => ended.Connected? && !slept
    case Refused => ended.GivenUp? && !slept
    case Unreachable => if next then ended.Cancelled? && last.cancelled && slept else ended.TimedOut? && !slept
  }

  /** At most four attempts, whatever each takes; no sleep is begun that would end past the retry
      window or the job's lease, and the loop gives up only when the next one would; only an
      unreachable startd is tried again. All four attempts are made when every one fails at once
      and no lease cuts the window short. */
  method EstablishReconnectWithRetry(start: int, lease: Option<int>, renewal: Option<int>, tries: nat -> Try)
      returns (ended: Ended, attempts: nat, sleeps: seq<Sleep>)
    ensures 1 <= attempts <= 4 && attempts - 1 <= |sleeps| <= attempts
    ensures InTime(sleeps, start, lease, renewal, tries)
    ensures forall i | 0 <= i < attempts - 1 :: tries(i).handshake.Unreachable? && !tries(i).cancelled
    ensures var next := EndOf(start, tries, attempts - 1) + Pause(attempts - 1);
            Explains(tries(attempts - 1), ended, InReach(start, lease, renewal, next), |sleeps| == attempts)
    ensures Hopeless(tries) && !LeaseOver(lease, renewal, start + 45 * 1_000_000_000) ==> attempts == 4
  {
    var deadline := RetryDeadline(start, lease, renewal);
    var now := start;
    var attempt := 0;
    sleeps := [];
    while true
      invariant attempt <= 3 && |sleeps| == attempt
      invariant now + tries(attempt).took == EndOf(start, tries, attempt)
      invariant forall i | 0 <= i < attempt :: tries(i).handshake.Unreachable? && !tries(i).cancelled
      invariant InTime(sleeps, start, lease, renewal, tries)
      decreases 3 - attempt
    {
      var t := tries(attempt);
      now := now + t.took;
      if t.handshake.Attached? {
        return Connected, attempt + 1, sleeps;
      }
      if t.handshake.Refused? {
        return GivenUp, attempt + 1, sleeps;
      }
      PauseIsDelay(attempt);
      FourthIsLast(start, lease, renewal, tries, attempt);
      var delay := BackOff(attempt);
      assert now + delay <= deadline <==> InReach(start, lease, renewal, EndOf(start, tries, attempt) + Pause(attempt));
      if now + delay > deadline {
        return TimedOut, attempt + 1, sleeps;
      }
      sleeps := sleeps + [Sleep(now, delay)];
      if t.cancelled {
        return Cancelled, attempt + 1, sleeps;
      }
      now := now + delay + t.late;
      attempt := attempt + 1;
    }
  }

  // ----- the wait status -----

  datatype Result = Result(status: int, reason: int)

  /** The low seven bits hold the signal, the second byte the exit code. */
  function ExitCode(r: Result): Option<int> { if r.status % 128 != 0 then None else Some(r.status / 256 % 256) }

  function TermSignal(r: Result): Option<int> { if r.status % 128 == 0 then None else Some(r.status % 128) }

  /** A wait status tells of an exit or of a signal, never of both, and says which. */
  lemma WaitStatusDecodes(code: nat, signal: nat, core: bool, reason: int)
    requires code < 256 && signal < 128
    ensures var r := Result(code * 256, reason);
            signal == 0 ==> ExitCode(r) == Some(code) && TermSignal(r) == None
    ensures var r := Result(signal + if core then 128 else 0, reason);
            signal != 0 ==> TermSignal(r) == Some(signal) && ExitCode(r) == None
  {
  }

  // ----- the end of a run -----

  datatype Command = JobDone | Graceful | Forcible | Release

  /** Which commands the startd would carry out. */
  datatype Startd = Startd(accepts: set<Command>, keepClaim: bool)

  datatype Error = Detached | ServeFailed | NoExit | WinddownFailed

  datatype Circumstances = Circumstances(detach: bool, cancelled: bool, serveFailed: bool, startd: Option<Startd>)

  class Shadow {
    var gotExit: bool
    var result: Result

    constructor ()
      ensures !gotExit
    {
      gotExit, result := false, Result(0, 0);
    }

    method RecordExit(status: int, reason: int)
      modifies this
      ensures gotExit && result == Result(status, reason)
    {
      gotExit := true;
      result := Result(status, reason);
    }

    /** Deactivates and, unless the claim is kept, releases it. */
    method Winddown(startd: Startd, jobDone: bool, vacate: bool) returns (ok: bool, sent: seq<Command>)
      ensures ok <==> WindsDown(startd, jobDone, vacate)
      ensures sent == WindingDown(startd, jobDone, vacate)
    {
      var first := if vacate then Forcible else if !jobDone then Graceful else JobDone;
      sent := [first];
      ok := first in startd.accepts;
      if !ok && first.JobDone? {
        sent := sent + [Graceful];
        ok := Graceful in startd.accepts;
      }
      if startd.keepClaim {
        return;
      }
      sent := sent + [Release];
      if Release !in startd.accepts {
        ok := false;
      }
    }

    method AfterServe(how: Circumstances) returns (res: Option<Result>, err: Option<Error>, sent: seq<Command>)
      ensures (res, err) == Outcome(gotExit, result, how)
      ensures sent == if (how.detach && !gotExit) || how.startd.None? then []
                      else WindingDown(how.startd.value, gotExit, how.cancelled && !gotExit)
    {
      sent := [];
      if how.detach && !gotExit {
        return None, Some(Detached), [];
      }
      var wound := true;
      if how.startd.Some? {
        wound, sent := Winddown(how.startd.value, gotExit, how.cancelled && !gotExit);
      }
      if how.serveFailed && !gotExit {
        return None, Some(ServeFailed), sent;
      }
      if !gotExit {
        return None, Some(NoExit), sent;
      }
      if !wound {
        return Some(result), Some(WinddownFailed), sent;
      }
      return Some(result), None, sent;
    }
  }

  /** The command that ends the activation: by force when the run was aborted, otherwise according
      to whether the job is done, which an old startd may not understand. */
  function Deactivation(startd: Startd, jobDone: bool, vacate: bool): seq<Command> {
    if vacate then [Forcible]
    else if !jobDone then [Graceful]
    else if JobDone in startd.accepts then [JobDone]
    else [JobDone, Graceful]
  }

  function WindingDown(startd: Startd, jobDone: bool, vacate: bool): seq<Command> {
    Deactivation(startd, jobDone, vacate) + if startd.keepClaim then [] else [Release]
  }

  predicate WindsDown(startd: Startd, jobDone: bool, vacate: bool) {
    var cmds := Deactivation(startd, jobDone, vacate);
    cmds[|cmds| - 1] in startd.accepts && (startd.keepClaim || Release in startd.accepts)
  }

  function Outcome(gotExit: bool, result: Result, how: Circumstances): (Option<Result>, Option<Error>) {
    if !gotExit then (None, Some(if how.detach then Detached else if how.serveFailed then ServeFailed else NoExit))
    else if how.startd.Some? && !WindsDown(how.startd.value, true, false) then (Some(result), Some(WinddownFailed))
    else (Some(result), None)
  }

  /** The wind-down in words: force exactly for an aborted run, JobDone first for a finished one, the
      graceful command for one that is neither or when JobDone was not understood; the claim is
      released last, exactly when it is not kept; and all went well when the last deactivation and
      the release did. */
  lemma WinddownIs(startd: Startd, jobDone: bool, vacate: bool)
    ensures var sent := WindingDown(startd, jobDone, vacate);
            && sent != []
            && (Forcible in sent <==> vacate) && (JobDone in sent <==> jobDone && !vacate)
            && (Graceful in sent <==> !vacate && !(jobDone && JobDone in startd.accepts))
            && (JobDone in sent ==> sent[0] == JobDone)
            && (Release in sent <==> !startd.keepClaim) && (Release in sent ==> sent[|sent| - 1] == Release)
            && |sent| <= 3 && forall i, j | 0 <= i < j < |sent| :: sent[i] != sent[j]
    ensures WindsDown(startd, jobDone, vacate)
            <==> && (if vacate then Forcible in startd.accepts
                     else Graceful in startd.accepts || (jobDone && JobDone in startd.accepts))
                 && (startd.keepClaim || Release in startd.accepts)
  {
  }

  /** The outcome in words: the result exactly when the job reported its exit; without it the error
      tells a detach from a failed and from an ended serve loop; with it only a wind-down can fail. */
  lemma OutcomeIs(gotExit: bool, result: Result, how: Circumstances)
    ensures var (res, err) := Outcome(gotExit, result, how);
            && (res == if gotExit then Some(result) else None)
            && (err == Some(Detached) <==> how.detach && !gotExit)
            && (err == Some(ServeFailed) <==> how.serveFailed && !how.detach && !gotExit)
            && (err == Some(NoExit) <==> !how.serveFailed && !how.detach && !gotExit)
            && (err == None ==> gotExit)
            && (gotExit && err.Some? ==> err == Some(WinddownFailed) && how.startd.Some?)
            && (gotExit && how.startd.Some? ==>
                  (err.None? <==> && (how.startd.value.keepClaim || Release in how.startd.value.accepts)
                                  && how.startd.value.accepts * {JobDone, Graceful} != {}))
  {
    if gotExit && how.startd.Some? {
      WinddownIs(how.startd.value, true, false);
      var accepts := how.startd.value.accepts;
      if accepts * {JobDone, Graceful} != {} {
        assert JobDone in accepts || Graceful in accepts;
      } else {
        assert JobDone !in accepts * {JobDone, Graceful} && Graceful !in accepts * {JobDone, Graceful};
      }
    }
  }

  /** What the run goroutine posts for this outcome. */
  function Posted(rid: nat, key: JobId, out: (Option<Result>, Option<Error>)): Event {
    EvExited(rid, key, Report(out.0.Some?, out.1 == Some(Detached)))
  }

  /** A run is charged to its job exactly when the shadow ended without a job_exit and without
      being told to detach, the job is Running and the run is not being torn down: never when the
      job reported its exit, however the claim's wind-down went. */
  lemma ExitedRunIsNeverCharged(c: Core, rid: nat, k: JobId, gotExit: bool, result: Result, how: Circumstances)
    ensures SchedulerBudget.Charges(c, Posted(rid, k, Outcome(gotExit, result, how)), k)
            <==> !gotExit && !how.detach && StatusOf(c.jobs, k) == RUNNING && !Silenced(c, k)
  {
  }
}
