/** The goroutines that apply policy actions, and the set of jobs with one under way. */
module SchedulerTasks {
  import opened Common
  import opened Jobs
  import opened Actions
  import opened SchedulerCore
  import opened SchedulerSystem
  import opened SchedulerRegistry

  /** The done events of goroutine r in the channel. */
  function Dones(events: seq<Event>, r: nat): nat {
    if events == [] then 0 else One(events[0].EvPolicyDone? && events[0].rid == r) + Dones(events[1..], r)
  }

  lemma {:induction false} DonesAppend(events: seq<Event>, e: Event, r: nat)
    ensures Dones(events + [e], r) == Dones(events, r) + One(e.EvPolicyDone? && e.rid == r)
  {
    if events == [] {
      assert events + [e] == [e];
    } else {
      assert (events + [e])[1..] == events[1..] + [e];
      DonesAppend(events[1..], e, r);
    }
  }

  predicate IsTask(c: Core, r: nat, k: JobId) {
    r < |c.launched| && c.launched[r].ApplyAction? && c.launched[r].key == k
  }

  /** Goroutine r applies an action to job k, and the core has not been told that it is done. */
  predicate Working(s: System, r: nat, k: JobId) {
    r in s.tasks && !s.tasks[r].Done? && IsTask(s.core, r, k)
  }

  predicate TasksLaunched(s: System) {
    && (forall r | r in s.tasks :: r < |s.core.launched| && s.core.launched[r].ApplyAction?)
    && (forall r | 0 <= r < |s.core.launched| && s.core.launched[r].ApplyAction? :: r in s.tasks)
  }

  /** A job is pending exactly while one action goroutine works on it. */
  ghost predicate PendingInv(s: System) {
    && (forall r, k | Working(s, r, k) :: k in s.core.policyPending)
    && (forall k | k in s.core.policyPending :: exists r :: Working(s, r, k))
    && (forall r, q, k | Working(s, r, k) && Working(s, q, k) :: r == q)
  }

  ghost predicate DonesInv(s: System) {
    && (forall r: nat :: Dones(s.events, r) == One(r in s.tasks && s.tasks[r].Posted?))
    && (forall i | 0 <= i < |s.events| && s.events[i].EvPolicyDone? ::
          s.events[i].rid in s.tasks && IsTask(s.core, s.events[i].rid, s.events[i].key))
  }

  ghost predicate TaskInv(s: System) { TasksLaunched(s) && PendingInv(s) && DonesInv(s) }

  // ----- deliveries -----

  /** Launches were added, and no action among them. */
  predicate NoNewTasks(c: Core, d: Core) {
    Prefix(c, d) && forall p | |c.launched| <= p < |d.launched| :: !d.launched[p].ApplyAction?
  }

  lemma {:induction false} ReattachTasks(c: Core, rs: seq<Recovered>)
    ensures NoNewTasks(c, Reattach(c, rs)) && Reattach(c, rs).policyPending == c.policyPending
  {
    if rs != [] {
      ReattachTasks(c, rs[..|rs| - 1]);
    }
  }

  lemma RecoverTasks(c: Core, scan: seq<JobId>, done: Option<nat>, now: int)
    ensures var d := OnRecover(c, scan, done, now); NoNewTasks(c, d) && d.policyPending == c.policyPending
  {
    ReattachTasks(c.(jobs := RequeueAll(c.jobs, Stale(c, scan, now), now)), Recoveries(c, scan, now));
  }

  lemma HandleTasks(cfg: Config, c: Core, e: Event, verdict: Verdict, scan: seq<JobId>, now: int)
    requires !e.EvPolicy? && !e.EvPolicyDone?
    ensures var d := Handle(cfg, c, e, verdict, scan, now);
            NoNewTasks(c, d) && d.policyPending == c.policyPending
  {
    if e.EvRecover? {
      RecoverIs(cfg, c, e.done, verdict, scan, now);
      RecoverTasks(c, scan, e.done, now);
    }
  }

  /** What decides whether a goroutine works on a job is unchanged. */
  lemma WorkingFrame(s: System, t: System, r: nat, k: JobId)
    requires TasksLaunched(s) && Prefix(s.core, t.core) && r in s.tasks && r in t.tasks && t.tasks[r] == s.tasks[r]
    ensures Working(t, r, k) <==> Working(s, r, k)
  {
  }

  lemma PassedPending(s: System, c: Core)
    requires TasksLaunched(s) && PendingInv(s) && s.events != [] && NoNewTasks(s.core, c)
    requires c.policyPending == s.core.policyPending && !s.events[0].EvPolicyDone?
    ensures TasksLaunched(Passed(s, c)) && PendingInv(Passed(s, c))
  {
    var t := Passed(s, c);
    assert t.tasks == s.tasks;
    forall r: nat, k
      ensures Working(t, r, k) <==> Working(s, r, k)
    {
      if r in s.tasks {
        WorkingFrame(s, t, r, k);
      }
    }
    forall k | k in t.core.policyPending
      ensures exists r :: Working(t, r, k)
    {
      var r :| Working(s, r, k);
      assert Working(t, r, k);
    }
  }

  lemma HeadDone(s: System)
    requires DonesInv(s) && s.events != [] && s.events[0].EvPolicyDone?
    ensures var e := s.events[0]; e.rid in s.tasks && s.tasks[e.rid].Posted? && Working(s, e.rid, e.key)
  {
    var e := s.events[0];
    assert Dones(s.events, e.rid) == One(e.rid in s.tasks && s.tasks[e.rid].Posted?);
  }

  /** The head leaves the channel and the goroutine it came from, if it was a done event, is noted. */
  lemma PassedDones(s: System, c: Core)
    requires TasksLaunched(s) && DonesInv(s) && s.events != [] && Prefix(s.core, c)
    ensures DonesInv(Passed(s, c))
  {
    var t := Passed(s, c);
    forall r: nat
      ensures Dones(t.events, r) == One(r in t.tasks && t.tasks[r].Posted?)
    {
      assert Dones(s.events, r) == One(r in s.tasks && s.tasks[r].Posted?);
      if s.events[0].EvPolicyDone? {
        HeadDone(s);
      }
    }
    forall i | 0 <= i < |t.events| && t.events[i].EvPolicyDone?
      ensures t.events[i].rid in t.tasks && IsTask(c, t.events[i].rid, t.events[i].key)
    {
      assert t.events[i] == s.events[i + 1];
    }
  }

  /** A new goroutine for a job that has none. */
  lemma LaunchKeepsPending(s: System, t: System, key: JobId, req: Request)
    requires TasksLaunched(s) && PendingInv(s) && key !in s.core.policyPending
    requires t.core.launched == s.core.launched + [ApplyAction(key, req)]
    requires t.core.policyPending == s.core.policyPending + {key} && t.tasks == s.tasks[|s.core.launched| := Live]
    ensures TasksLaunched(t) && PendingInv(t)
  {
    var n := |s.core.launched|;
    assert Working(t, n, key);
    forall r: nat, k
      ensures Working(t, r, k) <==> Working(s, r, k) || (r == n && k == key)
    {
      if r in s.tasks {
        WorkingFrame(s, t, r, k);
      }
    }
    forall k | k in t.core.policyPending
      ensures exists r :: Working(t, r, k)
    {
      if k != key {
        var r :| Working(s, r, k);
        assert Working(t, r, k);
      }
    }
  }

  /** A policy event launches a goroutine for a job that has none. */
  lemma PolicyPassed(s: System)
    requires TasksLaunched(s) && PendingInv(s) && s.events != [] && s.events[0].EvPolicy?
    ensures var t := Passed(s, OnPolicy(s.core, s.events[0].key, s.events[0].req)); TasksLaunched(t) && PendingInv(t)
  {
    var key, req := s.events[0].key, s.events[0].req;
    var c := OnPolicy(s.core, key, req);
    if key in s.core.policyPending || !PolicyApplicable(req.kind, StatusOf(s.core.jobs, key)) {
      PassedPending(s, c);
    } else {
      assert Passed(s, c).tasks == s.tasks[|s.core.launched| := Live];
      LaunchKeepsPending(s, Passed(s, c), key, req);
    }
  }

  /** A done event ends the one goroutine of its job. */
  lemma DonePassed(s: System)
    requires TaskInv(s) && s.events != [] && s.events[0].EvPolicyDone?
    ensures var t := Passed(s, OnPolicyDone(s.core, s.events[0].key)); TasksLaunched(t) && PendingInv(t)
  {
    var e := s.events[0];
    var t := Passed(s, OnPolicyDone(s.core, e.key));
    HeadDone(s);
    assert t.tasks == s.tasks[e.rid := Done];
    forall r: nat, k
      ensures Working(t, r, k) <==> Working(s, r, k) && r != e.rid
    {
      if r in s.tasks && r != e.rid {
        WorkingFrame(s, t, r, k);
      }
    }
    forall k | k in t.core.policyPending
      ensures exists r :: Working(t, r, k)
    {
      var r :| Working(s, r, k);
      assert Working(t, r, k);
    }
  }

  lemma DeliverKeepsTasks(cfg: Config, s: System, verdict: Verdict, scan: seq<JobId>, now: int)
    requires TaskInv(s) && s.events != []
    ensures TaskInv(Passed(s, Handle(cfg, s.core, s.events[0], verdict, scan, now)))
  {
    match s.events[0]
    case EvPolicy(key, req) =>
      PolicyIs(cfg, s.core, key, req, verdict, scan, now);
      PolicyPassed(s);
      PassedDones(s, OnPolicy(s.core, key, req));
    case EvPolicyDone(rid, key) =>
      PolicyDoneIs(cfg, s.core, rid, key, verdict, scan, now);
      DonePassed(s);
      PassedDones(s, OnPolicyDone(s.core, key));
    case e =>
      HandleTasks(cfg, s.core, e, verdict, scan, now);
      PassedPending(s, Handle(cfg, s.core, e, verdict, scan, now));
      PassedDones(s, Handle(cfg, s.core, e, verdict, scan, now));
  }

  // ----- other steps -----

  /** The action goroutines, their launches and the pending jobs are as before. */
  predicate SameTasks(s: System, t: System) {
    t.tasks == s.tasks && t.core.launched == s.core.launched && t.core.policyPending == s.core.policyPending
  }

  lemma FramePending(s: System, t: System)
    requires TasksLaunched(s) && PendingInv(s) && SameTasks(s, t)
    ensures TasksLaunched(t) && PendingInv(t)
  {
    forall r, k
      ensures Working(t, r, k) <==> Working(s, r, k)
    {
    }
    forall k | k in t.core.policyPending
      ensures exists r :: Working(t, r, k)
    {
      var r :| Working(s, r, k);
      assert Working(t, r, k);
    }
  }

  lemma FrameKeepsTasks(s: System, t: System)
    requires TaskInv(s) && SameTasks(s, t) && t.events == s.events
    ensures TaskInv(t)
  {
    FramePending(s, t);
  }

  /** Posting an event that is no done event, or dropping it. */
  lemma PostKeepsTasks(s: System, t: System, e: Event)
    requires TaskInv(s) && SameTasks(s, t) && !e.EvPolicyDone?
    requires t.events == s.events || t.events == s.events + [e]
    ensures TaskInv(t)
  {
    FramePending(s, t);
    forall r: nat
      ensures Dones(t.events, r) == Dones(s.events, r)
    {
      DonesAppend(s.events, e, r);
    }
  }

  lemma PostDoneKeepsPending(cfg: Config, s: System, rid: nat)
    requires TaskInv(s) && Enabled(s, PostDone(rid))
    ensures TasksLaunched(Apply(cfg, s, PostDone(rid))) && PendingInv(Apply(cfg, s, PostDone(rid)))
  {
    var t := Apply(cfg, s, PostDone(rid));
    forall r, k
      ensures Working(t, r, k) <==> Working(s, r, k)
    {
    }
    forall k | k in t.core.policyPending
      ensures exists r :: Working(t, r, k)
    {
      var r :| Working(s, r, k);
      assert Working(t, r, k);
    }
  }

  lemma PostDoneKeepsDones(cfg: Config, s: System, rid: nat)
    requires DonesInv(s) && Enabled(s, PostDone(rid))
    ensures DonesInv(Apply(cfg, s, PostDone(rid)))
  {
    var e := EvPolicyDone(rid, s.core.launched[rid].key);
    var t := Apply(cfg, s, PostDone(rid));
    forall r: nat
      ensures Dones(t.events, r) == One(r in t.tasks && t.tasks[r].Posted?)
    {
      DonesAppend(s.events, e, r);
      assert Dones(s.events, r) == One(r in s.tasks && s.tasks[r].Posted?);
    }
  }

  lemma SubmittedSameTasks(s: System, e: Event, runs: map<nat, Run>)
    ensures var t := Submitted(s, e).(runs := runs);
            SameTasks(s, t) && (t.events == s.events || t.events == s.events + [e])
  {
  }

  lemma SubmittedKeepsTasks(s: System, e: Event, runs: map<nat, Run>)
    requires TaskInv(s) && !e.EvPolicyDone?
    ensures TaskInv(Submitted(s, e).(runs := runs))
  {
    SubmittedSameTasks(s, e, runs);
    PostKeepsTasks(s, Submitted(s, e).(runs := runs), e);
  }

  lemma QuietStepKeepsTasks(cfg: Config, s: System, step: Step)
    requires TaskInv(s) && Enabled(s, step)
    requires step.Sweep? || step.ActBegin? || step.ActEnd? || step.ActFail? || step.Arrive?
    ensures TaskInv(Apply(cfg, s, step))
  {
    FrameKeepsTasks(s, Apply(cfg, s, step));
  }

  lemma StepKeepsTasks(cfg: Config, s: System, step: Step)
    requires TaskInv(s) && Enabled(s, step)
    ensures TaskInv(Apply(cfg, s, step))
  {
    match step
    case PostDone(rid) =>
      PostDoneKeepsPending(cfg, s, rid);
      PostDoneKeepsDones(cfg, s, rid);
    case Deliver(verdict, scan, now) => DeliverKeepsTasks(cfg, s, verdict, scan, now);
    case Submit(ev) => SubmittedKeepsTasks(s, ev, s.runs);
    case PostStarted(rid, slot, claim) =>
      SubmittedKeepsTasks(s, EvStarted(rid, s.core.launched[rid].key, slot, claim), Apply(cfg, s, step).runs);
    case PostEnd(ev) => SubmittedKeepsTasks(s, ev, Apply(cfg, s, step).runs);
    case _ => QuietStepKeepsTasks(cfg, s, step);
  }

  // ----- dropped done events -----

  /** A goroutine whose done event was dropped is never heard of again. */
  lemma StepKeepsLostTask(cfg: Config, s: System, step: Step, r: nat)
    requires TaskInv(s) && Enabled(s, step) && r in s.tasks && s.tasks[r].Lost?
    ensures var t := Apply(cfg, s, step); r in t.tasks && t.tasks[r].Lost?
  {
    if step.Deliver? && s.events[0].EvPolicyDone? {
      HeadDone(s);
    }
  }

  /** From c to d launches were added, and no action on job k among them. */
  predicate NoneFor(c: Core, d: Core, k: JobId) {
    Prefix(c, d) && forall p | |c.launched| <= p < |d.launched| :: !IsTask(d, p, k)
  }

  lemma NoneForOn(c: Core, d: Core, e: Core, k: JobId)
    requires NoneFor(c, d, k) && NoneFor(d, e, k)
    ensures NoneFor(c, e, k)
  {
    forall p | |c.launched| <= p < |e.launched|
      ensures !IsTask(e, p, k)
    {
      if p < |d.launched| {
        assert !IsTask(d, p, k);
      }
    }
  }

  lemma HandleLaunchesNone(cfg: Config, c: Core, e: Event, verdict: Verdict, scan: seq<JobId>, now: int, k: JobId)
    requires k in c.policyPending
    ensures NoneFor(c, Handle(cfg, c, e, verdict, scan, now), k)
  {
    match e
    case EvPolicy(key, req) => PolicyIs(cfg, c, key, req, verdict, scan, now);
    case EvPolicyDone(rid, key) => PolicyDoneIs(cfg, c, rid, key, verdict, scan, now);
    case _ => HandleTasks(cfg, c, e, verdict, scan, now);
  }

  /** While a job is pending no step launches another action for it. */
  lemma PendingLaunchesNone(cfg: Config, s: System, step: Step, k: JobId)
    requires Enabled(s, step) && k in s.core.policyPending
    ensures NoneFor(s.core, Apply(cfg, s, step).core, k)
  {
    if step.Deliver? {
      HandleLaunchesNone(cfg, s.core, s.events[0], step.verdict, step.scan, step.now, k);
    }
  }
}
