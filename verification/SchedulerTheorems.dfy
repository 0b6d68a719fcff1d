/** What holds of every run of the schedd, from any recovered queue and for any interleaving. */
module SchedulerTheorems {
  import opened Common
  import opened Jobs
  import opened Actions
  import opened SchedulerCore
  import opened SchedulerSystem
  import opened SchedulerRegistry
  import opened SchedulerBudget
  import opened SchedulerVacate
  import opened SchedulerChannels
  import opened SchedulerDrain
  import opened SchedulerTasks
  import SchedulerEffects

  /** The schedd can be in state s after starting from `jobs`. */
  ghost predicate Reachable(cfg: Config, jobs: Queue, s: System) {
    exists steps :: Execute(cfg, Initial(jobs), steps) == Some(s)
  }

  lemma {:induction false} ExecuteKeepsReg(cfg: Config, jobs: Queue, steps: seq<Step>)
    requires Execute(cfg, Initial(jobs), steps).Some?
    ensures RegInv(Execute(cfg, Initial(jobs), steps).value)
  {
    if steps != [] {
      ExecuteKeepsReg(cfg, jobs, steps[..|steps| - 1]);
      StepKeepsReg(cfg, Execute(cfg, Initial(jobs), steps[..|steps| - 1]).value, steps[|steps| - 1]);
    }
  }

  lemma {:induction false} ExecuteKeepsBudget(cfg: Config, jobs: Queue, steps: seq<Step>, k: JobId)
    requires cfg.maxExceptions >= 1 && BudgetedAt(cfg.maxExceptions, Initial(jobs).core, k)
    requires Execute(cfg, Initial(jobs), steps).Some?
    ensures BudgetInv(cfg, Execute(cfg, Initial(jobs), steps).value, k)
  {
    if steps != [] {
      var s := Execute(cfg, Initial(jobs), steps[..|steps| - 1]).value;
      ExecuteKeepsBudget(cfg, jobs, steps[..|steps| - 1], k);
      assert HeadRegistered(s) by {
        ExecuteKeepsReg(cfg, jobs, steps[..|steps| - 1]);
        HeadIsRegistered(s);
      }
      StepKeepsBudget(cfg, s, steps[|steps| - 1], k);
    }
  }

  lemma {:induction false} ExecuteKeepsChans(cfg: Config, jobs: Queue, steps: seq<Step>)
    requires Execute(cfg, Initial(jobs), steps).Some?
    ensures DrainInv(Execute(cfg, Initial(jobs), steps).value) && ChanInv(Execute(cfg, Initial(jobs), steps).value)
  {
    if steps == [] {
      forall ch: nat
        ensures Placed(Initial(jobs), ch)
      {
        assert Waiting(map[], ch) == {};
      }
    } else {
      var s := Execute(cfg, Initial(jobs), steps[..|steps| - 1]).value;
      ExecuteKeepsChans(cfg, jobs, steps[..|steps| - 1]);
      StepKeepsDrain(cfg, s, steps[|steps| - 1]);
      StepKeepsChans(cfg, s, steps[|steps| - 1]);
    }
  }

  lemma {:induction false} ExecuteKeepsGrants(cfg: Config, jobs: Queue, steps: seq<Step>)
    requires Execute(cfg, Initial(jobs), steps).Some?
    ensures GrantInv(Execute(cfg, Initial(jobs), steps).value)
  {
    if steps != [] {
      ExecuteKeepsGrants(cfg, jobs, steps[..|steps| - 1]);
      StepKeepsGrants(cfg, Execute(cfg, Initial(jobs), steps[..|steps| - 1]).value, steps[|steps| - 1]);
    }
  }

  lemma {:induction false} ExecuteKeepsTasks(cfg: Config, jobs: Queue, steps: seq<Step>)
    requires Execute(cfg, Initial(jobs), steps).Some?
    ensures TaskInv(Execute(cfg, Initial(jobs), steps).value)
  {
    if steps != [] {
      ExecuteKeepsTasks(cfg, jobs, steps[..|steps| - 1]);
      StepKeepsTasks(cfg, Execute(cfg, Initial(jobs), steps[..|steps| - 1]).value, steps[|steps| - 1]);
    }
  }

  lemma ReachableTasks(cfg: Config, jobs: Queue, s: System)
    requires Reachable(cfg, jobs, s)
    ensures TaskInv(s)
  {
    var steps :| Execute(cfg, Initial(jobs), steps) == Some(s);
    ExecuteKeepsTasks(cfg, jobs, steps);
  }

  lemma ReachableReg(cfg: Config, jobs: Queue, s: System)
    requires Reachable(cfg, jobs, s)
    ensures RegInv(s)
  {
    var steps :| Execute(cfg, Initial(jobs), steps) == Some(s);
    ExecuteKeepsReg(cfg, jobs, steps);
  }

  lemma ReachableBudget(cfg: Config, jobs: Queue, s: System, k: JobId)
    requires cfg.maxExceptions >= 1 && BudgetedAt(cfg.maxExceptions, Initial(jobs).core, k)
    requires Reachable(cfg, jobs, s)
    ensures BudgetInv(cfg, s, k)
  {
    var steps :| Execute(cfg, Initial(jobs), steps) == Some(s);
    ExecuteKeepsBudget(cfg, jobs, steps, k);
  }

  lemma ReachableChans(cfg: Config, jobs: Queue, s: System)
    requires Reachable(cfg, jobs, s)
    ensures DrainInv(s) && ChanInv(s)
  {
    var steps :| Execute(cfg, Initial(jobs), steps) == Some(s);
    ExecuteKeepsChans(cfg, jobs, steps);
  }

  lemma ReachableGrants(cfg: Config, jobs: Queue, s: System)
    requires Reachable(cfg, jobs, s)
    ensures GrantInv(s)
  {
    var steps :| Execute(cfg, Initial(jobs), steps) == Some(s);
    ExecuteKeepsGrants(cfg, jobs, steps);
  }

  // ----- the registry -----

  /** Run r has been started for job k and its terminal event has not been delivered. */
  predicate Unfinished(s: System, r: nat, k: JobId) {
    r in s.runs && !s.runs[r].phase.Done? && r < |s.core.launched| && IsRun(s.core.launched[r])
      && s.core.launched[r].key == k
  }

  /** The terminal events of run r in the channel. */
  function Ends(events: seq<Event>, r: nat): nat {
    if events == [] then 0 else One(Terminal(events[0]) && OfRun(events[0], r)) + Ends(events[1..], r)
  }

  lemma {:induction false} EndsAreTags(events: seq<Event>, r: nat)
    ensures Ends(events, r) == multiset(Tags(events, r))[true]
  {
    if events != [] {
      EndsAreTags(events[1..], r);
    }
  }

  /** A job is registered exactly while one run of it is unfinished, no job has two of them,
      and the gauge counts them. */
  lemma RegistryMatchesRuns(cfg: Config, jobs: Queue, s: System)
    requires Reachable(cfg, jobs, s)
    ensures s.core.gauge == |s.core.running|
    ensures forall k | k in s.core.running :: Unfinished(s, s.core.running[k].rid, k)
    ensures forall r, k | Unfinished(s, r, k) :: k in s.core.running && s.core.running[k].rid == r
    ensures forall r, q, k | Unfinished(s, r, k) && Unfinished(s, q, k) :: r == q
  {
    ReachableReg(cfg, jobs, s);
    forall k | k in s.core.running
      ensures Unfinished(s, s.core.running[k].rid, k)
    {
      assert Entry(s.core, k) && Backs(s.core, s.core.running[k].rid);
    }
    forall r, k | Unfinished(s, r, k)
      ensures k in s.core.running && s.core.running[k].rid == r
    {
      assert Backs(s.core, r);
    }
  }

  /** An unfinished run has at most one terminal event under way, and a finished one none. */
  lemma OneEndPerRun(cfg: Config, jobs: Queue, s: System, r: nat)
    requires Reachable(cfg, jobs, s)
    ensures Ends(s.events, r) == One(r in s.runs && s.runs[r].phase.Posted?)
  {
    ReachableReg(cfg, jobs, s);
    EndsAreTags(s.events, r);
    assert Tags(s.events, r) == Expected(s.runs, r);
  }

  /** Every delivered match's claim was handed back, or belongs to one run of its own. */
  lemma ClaimsAreAccountedFor(cfg: Config, jobs: Queue, s: System)
    requires Reachable(cfg, jobs, s)
    ensures forall i | 0 <= i < |s.grants| ::
              && s.grants[i].at < |s.core.launched|
              && (s.core.launched[s.grants[i].at] == ReleaseClaim(s.grants[i].claim)
                  || (s.grants[i].at in s.runs && s.core.launched[s.grants[i].at].RunJob?
                      && s.core.launched[s.grants[i].at].claim == s.grants[i].claim))
    ensures forall i, j | 0 <= i < j < |s.grants| :: s.grants[i].at != s.grants[j].at
    ensures forall r | r in s.runs && r < |s.core.launched| && s.core.launched[r].RunJob? ::
              exists i :: 0 <= i < |s.grants| && s.grants[i].at == r
  {
    ReachableReg(cfg, jobs, s);
    ReachableGrants(cfg, jobs, s);
    forall i | 0 <= i < |s.grants|
      ensures Settled(s.core, s.grants[i]) && (s.core.launched[s.grants[i].at].RunJob? ==> s.grants[i].at in s.runs)
    {
    }
  }

  lemma StepKeepsLost(cfg: Config, s: System, step: Step, r: nat)
    requires RegInv(s) && Enabled(s, step) && r in s.runs && s.runs[r].phase.Lost?
    ensures var t := Apply(cfg, s, step); r in t.runs && t.runs[r].phase.Lost?
  {
    if step.Deliver? {
      var c := Handle(cfg, s.core, s.events[0], step.verdict, step.scan, step.now);
      HandleEvolves(cfg, s.core, s.events[0], step.verdict, step.scan, step.now);
      PassedKeepsLost(s, c, r);
    }
  }

  lemma PassedKeepsLost(s: System, c: Core, r: nat)
    requires RunsLaunched(s) && InStep(s) && s.events != [] && Prefix(s.core, c)
    requires r in s.runs && s.runs[r].phase.Lost?
    ensures r in Passed(s, c).runs && Passed(s, c).runs[r].phase.Lost?
  {
    HeadTag(s);
    PassedRun(s, c, r);
  }

  lemma {:induction false} ExecuteKeepsLost(cfg: Config, s: System, steps: seq<Step>, r: nat)
    requires RegInv(s) && Execute(cfg, s, steps).Some? && r in s.runs && s.runs[r].phase.Lost?
    ensures var u := Execute(cfg, s, steps).value; RegInv(u) && r in u.runs && u.runs[r].phase.Lost?
  {
    if steps != [] {
      var before := steps[..|steps| - 1];
      ExecuteKeepsLost(cfg, s, before, r);
      StepKeepsReg(cfg, Execute(cfg, s, before).value, steps[|steps| - 1]);
      StepKeepsLost(cfg, Execute(cfg, s, before).value, steps[|steps| - 1], r);
    }
  }

  lemma {:induction false} ExecuteReaches(cfg: Config, jobs: Queue, s: System, steps: seq<Step>)
    requires Reachable(cfg, jobs, s) && Execute(cfg, s, steps).Some?
    ensures Reachable(cfg, jobs, Execute(cfg, s, steps).value)
  {
    if steps != [] {
      ExecuteReaches(cfg, jobs, s, steps[..|steps| - 1]);
      ReachableStep(cfg, jobs, Execute(cfg, s, steps[..|steps| - 1]).value, steps[|steps| - 1]);
    }
  }

  /** A run whose terminal event the full channel dropped stays registered whatever follows: its job
      is not matched again, and a drain is never finished. */
  lemma DroppedEndIsForEver(cfg: Config, jobs: Queue, s: System, steps: seq<Step>, r: nat, claim: string)
    requires Reachable(cfg, jobs, s) && Execute(cfg, s, steps).Some?
    requires r in s.runs && s.runs[r].phase.Lost?
    ensures var u := Execute(cfg, s, steps).value;
            && Backs(u.core, r) && !Takes(u.core, u.core.launched[r].key, claim)
            && (u.core.draining ==> u.drainChan.Some? && u.drainChan.value !in u.core.closed)
  {
    var u := Execute(cfg, s, steps).value;
    ReachableReg(cfg, jobs, s);
    ExecuteKeepsLost(cfg, s, steps, r);
    ExecuteReaches(cfg, jobs, s, steps);
    if u.core.draining {
      DrainClosesWhenEmpty(cfg, jobs, u);
    }
  }

  // ----- matches and jobs -----

  /** Every fresh run ever launched goes back to the delivery of a match for its job, on its claim, at
      a moment when that job was queued, Idle and without a run, and the schedd was not draining. */
  lemma {:induction false} EveryRunHadAnIdleJob(cfg: Config, jobs: Queue, steps: seq<Step>, p: nat) returns (i: nat)
    requires Execute(cfg, Initial(jobs), steps).Some?
    requires var c := Execute(cfg, Initial(jobs), steps).value.core; p < |c.launched| && c.launched[p].RunJob?
    ensures i < |steps| && steps[i].Deliver?
    ensures var run := Execute(cfg, Initial(jobs), steps).value.core.launched[p];
            var s := Execute(cfg, Initial(jobs), steps[..i]);
            && s.Some? && s.value.events != [] && |s.value.core.launched| == p
            && s.value.events[0].EvMatch? && s.value.events[0].key == run.key && s.value.events[0].claim == run.claim
            && run.key in s.value.core.jobs && s.value.core.jobs[run.key].status == 1
            && run.key !in s.value.core.running && !s.value.core.draining
  {
    var n := |steps| - 1;
    var s := Execute(cfg, Initial(jobs), steps[..n]).value;
    StepLaunches(cfg, s, steps[n], p);
    if p < |s.core.launched| {
      i := EveryRunHadAnIdleJob(cfg, jobs, steps[..n], p);
      assert steps[..n][..i] == steps[..i];
    } else {
      i := n;
    }
  }

  lemma StepLaunches(cfg: Config, s: System, step: Step, p: nat)
    requires Enabled(s, step)
    requires var c := Apply(cfg, s, step).core; p < |c.launched| && c.launched[p].RunJob?
    ensures if p < |s.core.launched| then Apply(cfg, s, step).core.launched[p] == s.core.launched[p]
            else step.Deliver? && p == |s.core.launched| && s.events[0].EvMatch?
                 && Apply(cfg, s, step).core.launched[p] == RunJob(s.events[0].key, s.events[0].claim)
                 && SchedulerEffects.Free(s.core, s.events[0].key)
  {
    if step.Deliver? {
      SchedulerEffects.HandleGrows(cfg, s.core, s.events[0], step.verdict, step.scan, step.now);
      if p >= |s.core.launched| {
        SchedulerEffects.OnlyMatchesRun(cfg, s.core, s.events[0], step.verdict, step.scan, step.now, p);
      }
    }
  }

  /** No job is ever lost: one that was recovered or has arrived is in the queue or in the history,
      whatever happens to it and in whatever order. */
  lemma {:induction false} NoJobIsLost(cfg: Config, s: System, steps: seq<Step>, k: JobId)
    requires SchedulerEffects.Kept(s.core, k) && Execute(cfg, s, steps).Some?
    ensures SchedulerEffects.Kept(Execute(cfg, s, steps).value.core, k)
  {
    if steps != [] {
      var n := |steps| - 1;
      NoJobIsLost(cfg, s, steps[..n], k);
      StepKeepsJob(cfg, Execute(cfg, s, steps[..n]).value, steps[n], k);
    }
  }

  lemma StepKeepsJob(cfg: Config, s: System, step: Step, k: JobId)
    requires Enabled(s, step) && SchedulerEffects.Kept(s.core, k)
    ensures SchedulerEffects.Kept(Apply(cfg, s, step).core, k)
  {
    match step
    case Deliver(v, scan, now) => SchedulerEffects.HandleKeepsJob(cfg, s.core, s.events[0], v, scan, now, k);
    case ActEnd(id, now) => WriteKeepsJob(s.core, s.acts[id], now, k);
    case _ => SchedulerEffects.ArchivedOn(s.core, Apply(cfg, s, step).core, k);
  }

  lemma WriteKeepsJob(c: Core, act: Act, now: int, k: JobId)
    requires SchedulerEffects.Kept(c, k)
    ensures SchedulerEffects.Kept(Written(c, act, now), k)
  {
    var d := Written(c, act, now);
    if k in c.jobs && k !in d.jobs {
      assert d.archived[|c.archived|].0 == k;
    }
    SchedulerEffects.ArchivedOn(c, d, k);
  }

  // ----- policy actions -----

  /** A job is pending exactly while one action goroutine works on it; its done event is in the channel,
      once, exactly when that goroutine has posted it. */
  lemma PendingExactlyWhileWorking(cfg: Config, jobs: Queue, s: System, k: JobId)
    requires Reachable(cfg, jobs, s)
    ensures k in s.core.policyPending <==> exists r :: Working(s, r, k)
    ensures forall r, q | Working(s, r, k) && Working(s, q, k) :: r == q
    ensures forall r | Working(s, r, k) :: Dones(s.events, r) == One(s.tasks[r].Posted?)
  {
    ReachableTasks(cfg, jobs, s);
  }

  /** An action goroutine whose done event the full channel dropped keeps its job pending whatever follows, so no
      policy action on that job is launched again. */
  lemma {:induction false} DroppedDoneIsForEver(cfg: Config, jobs: Queue, s: System, steps: seq<Step>, r: nat, k: JobId)
    requires Reachable(cfg, jobs, s) && Execute(cfg, s, steps).Some?
    requires Working(s, r, k) && s.tasks[r].Lost?
    ensures var u := Execute(cfg, s, steps).value;
            Working(u, r, k) && u.tasks[r].Lost? && k in u.core.policyPending && NoneFor(s.core, u.core, k)
  {
    if steps == [] {
      ReachableTasks(cfg, jobs, s);
    } else {
      var before := steps[..|steps| - 1];
      var u := Execute(cfg, s, before).value;
      DroppedDoneIsForEver(cfg, jobs, s, before, r, k);
      ExecuteReaches(cfg, jobs, s, before);
      LostTaskStep(cfg, jobs, u, steps[|steps| - 1], r, k);
      NoneForOn(s.core, u.core, Apply(cfg, u, steps[|steps| - 1]).core, k);
    }
  }

  lemma LostTaskStep(cfg: Config, jobs: Queue, u: System, step: Step, r: nat, k: JobId)
    requires Reachable(cfg, jobs, u) && Enabled(u, step)
    requires Working(u, r, k) && u.tasks[r].Lost? && k in u.core.policyPending
    ensures var v := Apply(cfg, u, step);
            Working(v, r, k) && v.tasks[r].Lost? && k in v.core.policyPending && NoneFor(u.core, v.core, k)
  {
    ReachableTasks(cfg, jobs, u);
    StepKeepsLostTask(cfg, u, step, r);
    PendingLaunchesNone(cfg, u, step, k);
    StepKeepsTasks(cfg, u, step);
    assert Working(Apply(cfg, u, step), r, k);
  }

  // ----- dropped events -----

  /** Enough posts fill the channel before anything in it is delivered. */
  lemma {:induction false} ReachFull(cfg: Config, jobs: Queue, s: System) returns (t: System)
    requires Reachable(cfg, jobs, s)
    ensures Reachable(cfg, jobs, t) && |t.events| >= CAPACITY
    ensures t.core == s.core && t.runs == s.runs && t.tasks == s.tasks
    decreases CAPACITY - |s.events|
  {
    if |s.events| >= CAPACITY {
      t := s;
    } else {
      var e := EvTeardown(LATE, None);
      ReachableStep(cfg, jobs, s, Submit(e));
      t := ReachFull(cfg, jobs, Submitted(s, e));
    }
  }

  /** From any state with a live run, that run's end may come to be dropped. */
  lemma AnyEndCanBeDropped(cfg: Config, jobs: Queue, s: System, r: nat) returns (t: System)
    requires Reachable(cfg, jobs, s) && r in s.runs && s.runs[r].phase.Live?
    ensures Reachable(cfg, jobs, t) && t.core == s.core && r in t.runs && t.runs[r].phase.Lost?
  {
    ReachableReg(cfg, jobs, s);
    var full := ReachFull(cfg, jobs, s);
    var e := EvFailed(r, s.core.launched[r].key, false, true, "", false);
    ReachableStep(cfg, jobs, full, PostEnd(e));
    t := Apply(cfg, full, PostEnd(e));
  }

  /** Likewise for the end of a policy action. */
  lemma AnyDoneCanBeDropped(cfg: Config, jobs: Queue, s: System, r: nat) returns (t: System)
    requires Reachable(cfg, jobs, s) && r in s.tasks && s.tasks[r].Live?
    ensures Reachable(cfg, jobs, t) && t.core == s.core && r in t.tasks && t.tasks[r].Lost?
  {
    ReachableTasks(cfg, jobs, s);
    var full := ReachFull(cfg, jobs, s);
    ReachableStep(cfg, jobs, full, PostDone(r));
    t := Apply(cfg, full, PostDone(r));
  }

  // ----- the failure budget -----

  /** In every state of the run the job's budget holds. */
  predicate AlwaysBudgeted(cfg: Config, jobs: Queue, steps: seq<Step>, k: JobId) {
    var s := Execute(cfg, Initial(jobs), steps);
    && s.Some? && BudgetedAt(cfg.maxExceptions, s.value.core, k)
    && (steps == [] || AlwaysBudgeted(cfg, jobs, steps[..|steps| - 1], k))
  }

  /** No step of the run is the end of a hold of the job that began when its budget was used up and
      ends when it has a run. */
  predicate NeverStale(cfg: Config, jobs: Queue, steps: seq<Step>, k: JobId) {
    steps == []
    || (var before := Execute(cfg, Initial(jobs), steps[..|steps| - 1]);
        && before.Some? && !StaleHoldOf(cfg.maxExceptions, before.value, steps[|steps| - 1], k)
        && NeverStale(cfg, jobs, steps[..|steps| - 1], k))
  }

  /** A job's budget holds throughout a run if and only if no stale hold of that job ends in it. */
  lemma {:induction false} BudgetHoldsExactly(cfg: Config, jobs: Queue, steps: seq<Step>, k: JobId)
    requires cfg.maxExceptions >= 1 && BudgetedAt(cfg.maxExceptions, Initial(jobs).core, k)
    requires Execute(cfg, Initial(jobs), steps).Some?
    ensures AlwaysBudgeted(cfg, jobs, steps, k) <==> NeverStale(cfg, jobs, steps, k)
  {
    if steps != [] {
      var before := steps[..|steps| - 1];
      var s := Execute(cfg, Initial(jobs), before).value;
      BudgetHoldsExactly(cfg, jobs, before, k);
      if AlwaysBudgeted(cfg, jobs, before, k) {
        ExecuteKeepsReg(cfg, jobs, before);
        HeadIsRegistered(s);
        OnlyAStaleHoldOverruns(cfg, s, steps[|steps| - 1], k);
      }
    }
  }

  /** A job no two actions on which have overlapped has not used up its budget while it is Idle,
      Running or registered, whatever was done to other jobs. */
  lemma BudgetHolds(cfg: Config, jobs: Queue, s: System, k: JobId)
    requires cfg.maxExceptions >= 1 && BudgetedAt(cfg.maxExceptions, Initial(jobs).core, k)
    requires Reachable(cfg, jobs, s) && k in s.core.jobs && k !in s.overlapped
    ensures s.core.jobs[k].status == IDLE || s.core.jobs[k].status == RUNNING || k in s.core.running
            ==> s.core.jobs[k].exceptions < cfg.maxExceptions
  {
    ReachableBudget(cfg, jobs, s, k);
  }

  lemma ReachableStep(cfg: Config, jobs: Queue, s: System, step: Step)
    requires Reachable(cfg, jobs, s) && Enabled(s, step)
    ensures Reachable(cfg, jobs, Apply(cfg, s, step))
  {
    var steps :| Execute(cfg, Initial(jobs), steps) == Some(s);
    assert (steps + [step])[..|steps|] == steps;
    assert Execute(cfg, Initial(jobs), steps + [step]) == Some(Apply(cfg, s, step));
  }

  /** The state once e has been posted into the empty channel and delivered. */
  function Delivered(cfg: Config, s: System, e: Event): System
    requires s.events == []
  {
    var t := Submitted(s, e);
    Passed(t, Handle(cfg, t.core, t.events[0], CompleteIt, [], 0))
  }

  lemma ReachDelivered(cfg: Config, jobs: Queue, s: System, e: Event)
    requires Reachable(cfg, jobs, s) && s.events == [] && Enabled(s, Submit(e))
    ensures Reachable(cfg, jobs, Delivered(cfg, s, e))
  {
    ReachableStep(cfg, jobs, s, Submit(e));
    ReachableStep(cfg, jobs, Submitted(s, e), Deliver(CompleteIt, [], 0));
  }

  const SPENT: JobId := JobId(1, 0)

  const HOLD: Request := Request(Hold, true, false, 0, 0)

  const RELEASE: Request := Request(Release, true, false, 0, 0)

  /** A job held for having used up its budget. */
  function SpentJob(max: int): Job {
    Job(HELD, RUNNING, 0, "", "", "", 0, None, 0, 0, max, SHADOW_EXCEPTION, SHADOW_EXCEPTION, 0, 1, 0)
  }

  /** A hold and a release of the spent job are both in flight. */
  lemma ReachOverlap(cfg: Config, jobs: Queue) returns (s: System)
    requires cfg.maxExceptions >= 1 && jobs == map[SPENT := SpentJob(cfg.maxExceptions)]
    ensures Reachable(cfg, jobs, s)
    ensures s == Initial(jobs).(acts := s.acts, overlapped := {SPENT})
    ensures s.acts == map[0 := Act(SPENT, HOLD, jobs[SPENT]), 1 := Act(SPENT, RELEASE, jobs[SPENT])]
  {
    assert Execute(cfg, Initial(jobs), []) == Some(Initial(jobs));
    ReachableStep(cfg, jobs, Initial(jobs), ActBegin(0, SPENT, HOLD));
    var t := Apply(cfg, Initial(jobs), ActBegin(0, SPENT, HOLD));
    assert t.acts[0].key == SPENT;
    ReachableStep(cfg, jobs, t, ActBegin(1, SPENT, RELEASE));
    s := Apply(cfg, t, ActBegin(1, SPENT, RELEASE));
  }

  /** Then the release has ended. */
  lemma ReachReleased(cfg: Config, jobs: Queue) returns (s: System)
    requires cfg.maxExceptions >= 1 && jobs == map[SPENT := SpentJob(cfg.maxExceptions)]
    ensures Reachable(cfg, jobs, s)
    ensures s == Initial(jobs).(core := s.core, acts := s.acts, overlapped := {SPENT})
    ensures s.acts == map[0 := Act(SPENT, HOLD, SpentJob(cfg.maxExceptions))]
    ensures s.core == Initial(jobs).core.(jobs := s.core.jobs) && StatusOf(s.core.jobs, SPENT) == IDLE
  {
    var t := ReachOverlap(cfg, jobs);
    ReachableStep(cfg, jobs, t, ActEnd(1, 0));
    s := Apply(cfg, t, ActEnd(1, 0));
  }

  /** The released job is matched. */
  lemma ReachRematched(cfg: Config, jobs: Queue) returns (s: System)
    requires cfg.maxExceptions >= 1 && jobs == map[SPENT := SpentJob(cfg.maxExceptions)]
    ensures Reachable(cfg, jobs, s)
    ensures s.events == [] && s.core.launched == [RunJob(SPENT, "claim")]
    ensures 0 in s.runs && s.runs[0] == Run(Live, NotYet)
    ensures s.acts == map[0 := Act(SPENT, HOLD, SpentJob(cfg.maxExceptions))]
  {
    var s0 := ReachReleased(cfg, jobs);
    var e := EvMatch(SPENT, "claim", "slot");
    ReachDelivered(cfg, jobs, s0, e);
    s := Delivered(cfg, s0, e);
    MatchIs(cfg, s0.core, SPENT, "claim", "slot", CompleteIt, [], 0);
    assert s.core.launched == [] + [RunJob(SPENT, "claim")];
  }

  /** Then the hold's stale copy is written over it. */
  lemma ReachStale(cfg: Config, jobs: Queue) returns (s: System)
    requires cfg.maxExceptions >= 1 && jobs == map[SPENT := SpentJob(cfg.maxExceptions)]
    ensures Reachable(cfg, jobs, s)
    ensures s.events == [] && s.core.launched == [RunJob(SPENT, "claim")]
    ensures 0 in s.runs && s.runs[0] == Run(Live, NotYet)
    ensures SPENT in s.core.jobs && s.core.jobs[SPENT].exceptions == cfg.maxExceptions
  {
    var t := ReachRematched(cfg, jobs);
    ReachableStep(cfg, jobs, t, ActEnd(0, 0));
    s := Apply(cfg, t, ActEnd(0, 0));
  }

  /** Overlapping actions do break the budget: a hold and a release of the same held job can
      leave it Running with its budget used up. */
  lemma OverlappingActionsCanOverrun(cfg: Config)
    requires cfg.maxExceptions >= 1
    ensures exists jobs, s :: Budgeted(cfg.maxExceptions, Initial(jobs).core) && Reachable(cfg, jobs, s)
              && StatusOf(s.core.jobs, SPENT) == RUNNING && s.core.jobs[SPENT].exceptions >= cfg.maxExceptions
  {
    var jobs: Queue := map[SPENT := SpentJob(cfg.maxExceptions)];
    assert Budgeted(cfg.maxExceptions, Initial(jobs).core);
    var s0 := ReachStale(cfg, jobs);
    var post := PostStarted(0, "slot", "claim");
    ReachableStep(cfg, jobs, s0, post);
    var s1 := Apply(cfg, s0, post);
    assert s1.events == [] + [EvStarted(0, SPENT, "slot", "claim")];
    var deliver := Deliver(CompleteIt, [], 0);
    ReachableStep(cfg, jobs, s1, deliver);
    var s2 := Apply(cfg, s1, deliver);
    assert StatusOf(s2.core.jobs, SPENT) == RUNNING && s2.core.jobs[SPENT].exceptions >= cfg.maxExceptions;
  }

  // ----- vacated runs -----

  /** A reachable state in which run r is vacated with its start behind it: whatever follows, no
      event of r that is delivered later writes a job record or the history. */
  lemma VacatedStaysSilent(cfg: Config, jobs: Queue, s: System, steps: seq<Step>, step: Step, r: nat)
    requires Reachable(cfg, jobs, s) && Quieted(s, r) && Execute(cfg, s, steps).Some?
    requires var u := Execute(cfg, s, steps).value; Enabled(u, step) && step.Deliver? && OfRun(u.events[0], r)
    ensures var u := Execute(cfg, s, steps).value;
            && Apply(cfg, u, step).core.jobs == u.core.jobs
            && Apply(cfg, u, step).core.archived == u.core.archived
  {
    ReachableReg(cfg, jobs, s);
    VacatedRunIsSilent(cfg, s, steps, step, r);
  }

  const LATE: JobId := JobId(2, 0)

  const IDLE_JOB: Job := Job(IDLE, 0, 0, "", "", "", 0, None, 0, 0, 0, 0, 0, 0, 0, 0)

  /** A match has made a run of the idle job; its evStarted is still to come. */
  lemma ReachMatched(cfg: Config, jobs: Queue) returns (s: System)
    requires jobs == map[LATE := IDLE_JOB]
    ensures Reachable(cfg, jobs, s) && s.core.jobs == jobs && s.events == [] && s.acts == map[] && !s.stopping
            && s.nextChan == 0
    ensures s.core.running == map[LATE := RunInfo(0, "claim", "slot", false, false, false, false, [])]
    ensures s.core.launched == [RunJob(LATE, "claim")] && s.core.closed == [] && s.core.drainDone.None?
    ensures 0 in s.runs && s.runs[0] == Run(Live, NotYet)
  {
    var e := EvMatch(LATE, "claim", "slot");
    assert Execute(cfg, Initial(jobs), []) == Some(Initial(jobs));
    ReachDelivered(cfg, jobs, Initial(jobs), e);
    MatchIs(cfg, Initial(jobs).core, LATE, "claim", "slot", CompleteIt, [], 0);
    s := Delivered(cfg, Initial(jobs), e);
    assert s.core.launched == [] + [RunJob(LATE, "claim")];
  }

  /** Then the drain vacates the run while the job is still Idle. */
  lemma ReachVacated(cfg: Config, jobs: Queue) returns (s: System)
    requires cfg.reconnectDisabled && jobs == map[LATE := IDLE_JOB]
    ensures Reachable(cfg, jobs, s) && s.core.jobs == jobs && s.events == [] && s.acts == map[]
    ensures s.core.running == map[LATE := RunInfo(0, "claim", "slot", true, false, false, true, [])]
    ensures s.core.launched == [RunJob(LATE, "claim")] && s.core.draining
    ensures 0 in s.runs && s.runs[0] == Run(Live, NotYet)
  {
    var s0 := ReachMatched(cfg, jobs);
    ReachDelivered(cfg, jobs, s0, EvDrain(0));
    DrainIs(cfg, s0.core, 0, CompleteIt, [], 0);
    s := Delivered(cfg, s0, EvDrain(0));
  }

  /** A vacated run does write if its start is still to come: with reconnects disabled, a drain that
      overtakes the start of a run leaves the job Running behind a vacated run. */
  lemma LateStartRevivesTheJob(cfg: Config, jobs: Queue) returns (s: System)
    requires cfg.reconnectDisabled && jobs == map[LATE := IDLE_JOB]
    ensures Reachable(cfg, jobs, s) && s.events == [] && s.acts == map[] && s.core.draining
    ensures s.core.running.Keys == {LATE} && s.core.running[LATE].vacated && s.core.running[LATE].rid == 0
    ensures StatusOf(s.core.jobs, LATE) == RUNNING
    ensures s.core.launched == [RunJob(LATE, "claim")] && 0 in s.runs && s.runs[0] == Run(Live, Seen)
  {
    var s0 := ReachVacated(cfg, jobs);
    var post := PostStarted(0, "slot", "claim");
    ReachableStep(cfg, jobs, s0, post);
    var s1 := Apply(cfg, s0, post);
    assert s1.events == [] + [EvStarted(0, LATE, "slot", "claim")];
    ReachableStep(cfg, jobs, s1, Deliver(CompleteIt, [], 0));
    s := Apply(cfg, s1, Deliver(CompleteIt, [], 0));
  }

  lemma EmptyRegistryMeansAllDone(cfg: Config, jobs: Queue, s: System)
    requires Reachable(cfg, jobs, s) && s.core.running == map[]
    ensures forall r | r in s.runs :: s.runs[r].phase.Done?
  {
    ReachableReg(cfg, jobs, s);
  }

  /** The end of such a run is silent, so the job stays Running with no run, no event and no action
      left to change it. */
  lemma LateStartStrandsTheJob(cfg: Config, jobs: Queue) returns (s: System)
    requires cfg.reconnectDisabled && jobs == map[LATE := IDLE_JOB]
    ensures Reachable(cfg, jobs, s) && StatusOf(s.core.jobs, LATE) == RUNNING && s.core.running == map[]
    ensures s.events == [] && s.acts == map[] && forall r | r in s.runs :: s.runs[r].phase.Done?
  {
    var s0 := LateStartRevivesTheJob(cfg, jobs);
    var end := EvExited(0, LATE, Report(false, false));
    ReachableStep(cfg, jobs, s0, PostEnd(end));
    var s1 := Apply(cfg, s0, PostEnd(end));
    assert s1.events == [] + [end];
    ReachableStep(cfg, jobs, s1, Deliver(CompleteIt, [], 0));
    s := Apply(cfg, s1, Deliver(CompleteIt, [], 0));
    assert s.core.running.Keys == {};
    EmptyRegistryMeansAllDone(cfg, jobs, s);
  }

  // ----- drain and channels -----

  /** Once the drain has been delivered, its channel has been closed exactly once if the
      registry is empty and not at all otherwise. */
  lemma DrainClosesWhenEmpty(cfg: Config, jobs: Queue, s: System)
    requires Reachable(cfg, jobs, s) && s.core.draining
    ensures s.drainChan.Some? && multiset(s.core.closed)[s.drainChan.value] == One(s.core.running == map[])
  {
    ReachableChans(cfg, jobs, s);
    assert Placed(s, s.drainChan.value);
  }

  /** While draining no step registers a run, and a delivered match is handed back at once. */
  lemma DrainingOnlyShrinks(cfg: Config, jobs: Queue, s: System, step: Step)
    requires Reachable(cfg, jobs, s) && s.core.draining && Enabled(s, step)
    ensures var t := Apply(cfg, s, step);
            && t.core.draining && t.core.running.Keys <= s.core.running.Keys
            && (step.Deliver? && s.events[0].EvMatch? ==>
                  t.core.launched == s.core.launched + [ReleaseClaim(s.events[0].claim)]
                  && t.core.running == s.core.running)
  {
    if step.Deliver? {
      ReachableChans(cfg, jobs, s);
      assert Drains(s.events) == 0;
      HandleDrains(cfg, s.core, s.events[0], step.verdict, step.scan, step.now);
      if s.events[0].EvMatch? {
        var e := s.events[0];
        MatchIs(cfg, s.core, e.key, e.claim, e.slot, step.verdict, step.scan, step.now);
      }
    }
  }

  /** No channel is closed twice, and one that is closed waits on no run and is in no event. */
  lemma ClosedOnce(cfg: Config, jobs: Queue, s: System, ch: nat)
    requires Reachable(cfg, jobs, s)
    ensures multiset(s.core.closed)[ch] <= 1
    ensures ch in s.core.closed ==> Waiting(s.core.running, ch) == {} && InFlight(s.events, ch) == 0
  {
    ReachableChans(cfg, jobs, s);
    assert Placed(s, ch);
  }

  /** A teardown channel that has reached the core is closed unless the run it waits on is
      still registered, and it waits on one run only. */
  lemma WaitersAreReaped(cfg: Config, jobs: Queue, s: System, ch: nat)
    requires Reachable(cfg, jobs, s) && ch < s.nextChan
    requires InFlight(s.events, ch) == 0 && ch !in s.lostChans && s.drainChan != Some(ch)
    ensures if ch in s.core.closed then Waiting(s.core.running, ch) == {}
            else |Waiting(s.core.running, ch)| == 1
  {
    ReachableChans(cfg, jobs, s);
    assert Placed(s, ch);
  }
}
