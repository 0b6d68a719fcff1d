/** A vacated run writes nothing more to its job. */
module SchedulerVacate {
  import opened Common
  import opened Jobs
  import opened SchedulerCore
  import opened SchedulerSystem
  import opened SchedulerRegistry

  /** Entries outside `gone` stay registered, and stay vacated if they were. */
  predicate KeepsVacated(c: Core, d: Core, gone: set<JobId>) {
    forall k | k in c.running && k !in gone :: k in d.running && (c.running[k].vacated ==> d.running[k].vacated)
  }

  lemma {:induction false} ReattachKeepsEntries(c: Core, rs: seq<Recovered>)
    requires forall i | 0 <= i < |rs| :: rs[i].key !in c.running
    ensures forall k | k in c.running :: k in Reattach(c, rs).running && Reattach(c, rs).running[k] == c.running[k]
  {
    if rs != [] {
      ReattachKeepsEntries(c, rs[..|rs| - 1]);
    }
  }

  lemma RecoverKeepsVacated(c: Core, scan: seq<JobId>, done: Option<nat>, now: int)
    requires NoDups(scan)
    ensures KeepsVacated(c, OnRecover(c, scan, done, now), {})
  {
    if !c.draining {
      RecoveriesKeys(c, scan, now);
      ReattachKeepsEntries(c.(jobs := RequeueAll(c.jobs, Stale(c, scan, now), now)), Recoveries(c, scan, now));
    }
  }

  lemma HandleKeepsVacated(cfg: Config, c: Core, e: Event, verdict: Verdict, scan: seq<JobId>, now: int)
    requires NoDups(scan)
    ensures KeepsVacated(c, Handle(cfg, c, e, verdict, scan, now), Gone(e))
  {
    match e
    case EvRecover(done) => RecoverKeepsVacated(c, scan, done, now);
    case _ =>
  }

  /** The run's evStarted is in the channel or may still come. */
  predicate CanStart(run: Run) { run.start.Queued? || (run.start.NotYet? && run.phase.Live?) }

  /** The run has been vacated, or is over, and its start is behind it. */
  predicate Quieted(s: System, r: nat) {
    && r in s.runs && !CanStart(s.runs[r])
    && (s.runs[r].phase.Done? || (Backs(s.core, r) && s.core.running[s.core.launched[r].key].vacated))
  }

  lemma DeliverKeepsQuieted(cfg: Config, s: System, verdict: Verdict, scan: seq<JobId>, now: int, r: nat)
    requires RegInv(s) && s.events != [] && NoDups(scan) && Quieted(s, r)
    ensures Quieted(Passed(s, Handle(cfg, s.core, s.events[0], verdict, scan, now)), r)
  {
    var c := Handle(cfg, s.core, s.events[0], verdict, scan, now);
    HandleEvolves(cfg, s.core, s.events[0], verdict, scan, now);
    HandleKeepsVacated(cfg, s.core, s.events[0], verdict, scan, now);
    PassedRun(s, c, r);
    HeadTag(s);
    HeadIsBacked(s);
    PassedBacks(s, c, r);
  }

  /** Delivering any event of a quieted run leaves every job record and the history alone. */
  lemma QuietedRunWritesNothing(cfg: Config, s: System, verdict: Verdict, scan: seq<JobId>, now: int, r: nat)
    requires RegInv(s) && s.events != [] && Quieted(s, r) && OfRun(s.events[0], r)
    ensures var c := Handle(cfg, s.core, s.events[0], verdict, scan, now);
            c.jobs == s.core.jobs && c.archived == s.core.archived
  {
    assert Terminal(s.events[0]) && Silenced(s.core, s.events[0].key) by {
      HeadTag(s);
      HeadIsBacked(s);
    }
    SilencedEndWritesNothing(cfg, s.core, s.events[0], verdict, scan, now);
  }

  lemma SilencedEndWritesNothing(cfg: Config, c: Core, e: Event, verdict: Verdict, scan: seq<JobId>, now: int)
    requires Terminal(e) && Silenced(c, e.key)
    ensures var d := Handle(cfg, c, e, verdict, scan, now); d.jobs == c.jobs && d.archived == c.archived
  {
  }

  lemma PostKeepsQuieted(cfg: Config, s: System, step: Step, r: nat)
    requires Enabled(s, step) && (step.PostStarted? || step.PostEnd?) && Quieted(s, r)
    ensures Quieted(Apply(cfg, s, step), r)
  {
  }

  lemma SweepKeepsQuieted(s: System, victims: set<JobId>, renewed: int, now: int, r: nat)
    requires Quieted(s, r)
    ensures Quieted(s.(core := OnSweep(s.core, victims, renewed, now)), r)
  {
  }

  /** The steps that leave the runs and the registry alone. */
  lemma QuietStepKeepsQuieted(cfg: Config, s: System, step: Step, r: nat)
    requires Enabled(s, step) && Quieted(s, r)
    requires !step.PostStarted? && !step.PostEnd? && !step.Deliver? && !step.Sweep?
    ensures Quieted(Apply(cfg, s, step), r)
  {
  }

  lemma StepKeepsQuieted(cfg: Config, s: System, step: Step, r: nat)
    requires RegInv(s) && Enabled(s, step) && Quieted(s, r)
    ensures Quieted(Apply(cfg, s, step), r)
  {
    match step
    case PostStarted(_, _, _) => PostKeepsQuieted(cfg, s, step, r);
    case PostEnd(_) => PostKeepsQuieted(cfg, s, step, r);
    case Deliver(verdict, scan, now) => DeliverKeepsQuieted(cfg, s, verdict, scan, now, r);
    case Sweep(victims, renewed, now) => SweepKeepsQuieted(s, victims, renewed, now, r);
    case _ => QuietStepKeepsQuieted(cfg, s, step, r);
  }

  lemma {:induction false} ExecuteKeepsQuieted(cfg: Config, s: System, steps: seq<Step>, r: nat)
    requires RegInv(s) && Quieted(s, r) && Execute(cfg, s, steps).Some?
    ensures RegInv(Execute(cfg, s, steps).value) && Quieted(Execute(cfg, s, steps).value, r)
  {
    if steps != [] {
      var before := steps[..|steps| - 1];
      ExecuteKeepsQuieted(cfg, s, before, r);
      StepKeepsReg(cfg, Execute(cfg, s, before).value, steps[|steps| - 1]);
      StepKeepsQuieted(cfg, Execute(cfg, s, before).value, steps[|steps| - 1], r);
    }
  }

  /** However the schedd goes on from a state where run r is vacated with its start behind it,
      no event of r that is delivered then writes a job record or the history. */
  lemma VacatedRunIsSilent(cfg: Config, s: System, steps: seq<Step>, step: Step, r: nat)
    requires RegInv(s) && Quieted(s, r) && Execute(cfg, s, steps).Some?
    requires var u := Execute(cfg, s, steps).value; Enabled(u, step) && step.Deliver? && OfRun(u.events[0], r)
    ensures var u := Execute(cfg, s, steps).value;
            && Apply(cfg, u, step).core.jobs == u.core.jobs
            && Apply(cfg, u, step).core.archived == u.core.archived
  {
    ExecuteKeepsQuieted(cfg, s, steps, r);
    QuietedRunWritesNothing(cfg, Execute(cfg, s, steps).value, step.verdict, step.scan, step.now, r);
  }

  /** The start has to be behind the run: among the events of a vacated run exactly the
      evStarted of a job still in the queue writes, and it makes the job Running. */
  lemma OnlyAStartWrites(cfg: Config, c: Core, e: Event, verdict: Verdict, scan: seq<JobId>, now: int)
    requires (Terminal(e) || e.EvStarted?) && e.key in c.running && c.running[e.key].vacated
    ensures var d := Handle(cfg, c, e, verdict, scan, now);
            && (d.jobs != c.jobs <==> e.EvStarted? && e.key in c.jobs)
            && (d.jobs != c.jobs ==> d.jobs[e.key].status == RUNNING)
  {
    if e.EvStarted? && e.key in c.jobs {
      var d := Handle(cfg, c, e, verdict, scan, now);
      assert d.jobs[e.key].starts == c.jobs[e.key].starts + 1;
    }
  }
}
