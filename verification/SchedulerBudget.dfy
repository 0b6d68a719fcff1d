/** The failure budget: which failures are charged to a job, and what the budget guarantees. */
module SchedulerBudget {
  import opened Common
  import opened Jobs
  import opened Actions
  import opened SchedulerCore
  import opened SchedulerSystem
  import opened SchedulerRegistry

  predicate Exhausted(max: int, jobs: Queue, k: JobId) {
    k in jobs && jobs[k].exceptions >= max
  }

  /** A job whose failures reached the maximum is Held, with no run. */
  predicate BudgetedAt(max: int, c: Core, k: JobId) {
    Exhausted(max, c.jobs, k) ==> c.jobs[k].status == HELD && k !in c.running
  }

  predicate Budgeted(max: int, c: Core) { forall k | k in c.jobs :: BudgetedAt(max, c, k) }

  /** The job's record is the same in d as in c. */
  predicate Kept(c: Core, d: Core, k: JobId) {
    (k in d.jobs <==> k in c.jobs) && (k in c.jobs ==> d.jobs[k] == c.jobs[k])
  }

  /** From c to d the job's budget is kept, and the job is left alone if it was exhausted. */
  predicate Respects(max: int, c: Core, d: Core, k: JobId) {
    BudgetedAt(max, d, k) && (Exhausted(max, c.jobs, k) ==> Kept(c, d, k))
  }

  lemma MatchRespects(max: int, c: Core, key: JobId, claim: string, slot: string, k: JobId)
    requires BudgetedAt(max, c, k)
    ensures Respects(max, c, OnMatch(c, key, claim, slot), k)
  {
  }

  lemma StartedRespects(cfg: Config, c: Core, key: JobId, slot: string, claim: string, now: int, k: JobId)
    requires BudgetedAt(cfg.maxExceptions, c, k) && key in c.running
    ensures Respects(cfg.maxExceptions, c, OnStarted(cfg, c, key, slot, claim, now), k)
  {
  }

  lemma ExitedRespects(cfg: Config, c: Core, key: JobId, report: Report, verdict: Verdict, now: int, k: JobId)
    requires BudgetedAt(cfg.maxExceptions, c, k) && key in c.running
    ensures Respects(cfg.maxExceptions, c, OnExited(cfg, c, key, report, verdict, now), k)
  {
  }

  lemma FailedRespects(cfg: Config, c: Core, key: JobId, detachedErr: bool, panicked: bool, claim: string,
                       released: bool, now: int, k: JobId)
    requires BudgetedAt(cfg.maxExceptions, c, k) && key in c.running
    ensures Respects(cfg.maxExceptions, c, OnFailed(cfg, c, key, detachedErr, panicked, claim, released, now), k)
  {
  }

  lemma ReconnectFailedRespects(cfg: Config, c: Core, key: JobId, now: int, k: JobId)
    requires BudgetedAt(cfg.maxExceptions, c, k) && key in c.running
    ensures Respects(cfg.maxExceptions, c, OnReconnectFailed(cfg, c, key, now), k)
  {
  }

  /** Requeueing Running jobs touches no exhausted one. */
  lemma RequeueRespects(max: int, c: Core, d: Core, ks: set<JobId>, now: int, k: JobId)
    requires BudgetedAt(max, c, k) && d.jobs == RequeueAll(c.jobs, ks, now)
    requires k in d.running && k in c.jobs ==> k in c.running || c.jobs[k].status == RUNNING
    ensures Respects(max, c, d, k)
  {
  }

  lemma {:induction false} RecoveriesAre(c: Core, scan: seq<JobId>, now: int)
    ensures forall i | 0 <= i < |Recoveries(c, scan, now)| :: Recoverable(c, Recoveries(c, scan, now)[i].key, now)
  {
    if scan != [] {
      RecoveriesAre(c, scan[..|scan| - 1], now);
    }
  }

  lemma {:induction false} ReattachKeepsJobs(c: Core, rs: seq<Recovered>)
    ensures Reattach(c, rs).jobs == c.jobs
  {
    if rs != [] {
      ReattachKeepsJobs(c, rs[..|rs| - 1]);
    }
  }

  lemma RecoverRespects(max: int, c: Core, scan: seq<JobId>, done: Option<nat>, now: int, k: JobId)
    requires BudgetedAt(max, c, k)
    ensures Respects(max, c, OnRecover(c, scan, done, now), k)
  {
    if !c.draining {
      var stale := Stale(c, scan, now);
      var rs := Recoveries(c, scan, now);
      RecoveriesAre(c, scan, now);
      ReattachKeepsJobs(c.(jobs := RequeueAll(c.jobs, stale, now)), rs);
      ReattachKeys(c.(jobs := RequeueAll(c.jobs, stale, now)), rs);
      RequeueRespects(max, c, OnRecover(c, scan, done, now), stale, now, k);
    }
  }

  lemma DrainRespects(cfg: Config, c: Core, done: nat, now: int, k: JobId)
    requires BudgetedAt(cfg.maxExceptions, c, k)
    ensures Respects(cfg.maxExceptions, c, OnDrain(cfg, c, done, now), k)
  {
    var d := OnDrain(cfg, c, done, now);
    if c.running != map[] && cfg.reconnectDisabled {
      RequeueRespects(cfg.maxExceptions, c, d, (set j | j in c.running && !c.running[j].vacated), now, k);
    }
  }

  lemma SweepRespects(max: int, c: Core, victims: set<JobId>, renewed: int, now: int, k: JobId)
    requires BudgetedAt(max, c, k)
    ensures Respects(max, c, OnSweep(c, victims, renewed, now), k)
  {
  }

  lemma ArriveRespects(max: int, c: Core, key: JobId, job: Job, k: JobId)
    requires max >= 1 && BudgetedAt(max, c, k) && key !in c.jobs && job.exceptions == 0
    ensures Respects(max, c, Edit(c, key, job), k)
  {
  }

  /** Every handler respects the budget of every job. */
  lemma HandleRespects(cfg: Config, c: Core, e: Event, verdict: Verdict, scan: seq<JobId>, now: int, k: JobId)
    requires BudgetedAt(cfg.maxExceptions, c, k)
    requires Terminal(e) || e.EvStarted? ==> e.key in c.running
    ensures Respects(cfg.maxExceptions, c, Handle(cfg, c, e, verdict, scan, now), k)
  {
    match e
    case EvMatch(key, claim, slot) => MatchRespects(cfg.maxExceptions, c, key, claim, slot, k);
    case EvStarted(_, key, slot, claim) => StartedRespects(cfg, c, key, slot, claim, now, k);
    case EvExited(_, key, report) => ExitedRespects(cfg, c, key, report, verdict, now, k);
    case EvFailed(_, key, detachedErr, panicked, claim, released) =>
      FailedRespects(cfg, c, key, detachedErr, panicked, claim, released, now, k);
    case EvReconnectFailed(_, key) => ReconnectFailedRespects(cfg, c, key, now, k);
    case EvTeardown(_, _) =>
    case EvDrain(done) => DrainRespects(cfg, c, done, now, k);
    case EvRecover(done) => RecoverRespects(cfg.maxExceptions, c, scan, done, now, k);
    case EvPolicy(_, _) =>
    case EvPolicyDone(_, _) =>
  }

  // ----- single steps -----

  /** A run event at the head of the channel comes from a registered run. */
  predicate HeadRegistered(s: System) {
    s.events != [] && (Terminal(s.events[0]) || s.events[0].EvStarted?) ==> s.events[0].key in s.core.running
  }

  lemma HeadIsRegistered(s: System)
    requires RegInv(s)
    ensures HeadRegistered(s)
  {
    if s.events != [] {
      var e := s.events[0];
      HeadTag(s);
      if Terminal(e) || e.EvStarted? {
        assert Backs(s.core, e.rid);
      }
    }
  }

  /** The end of a hold whose snapshot was exhausted, on a job that has a run by now. */
  predicate StaleHold(max: int, s: System, step: Step) {
    && step.ActEnd? && step.id in s.acts && s.acts[step.id].req.kind.Hold?
    && s.acts[step.id].snapshot.exceptions >= max && s.acts[step.id].key in s.core.running
  }

  /** The same, on job k. */
  predicate StaleHoldOf(max: int, s: System, step: Step, k: JobId) {
    StaleHold(max, s, step) && s.acts[step.id].key == k
  }

  lemma ActEndBudget(cfg: Config, s: System, id: nat, now: int, k: JobId)
    requires cfg.maxExceptions >= 1 && BudgetedAt(cfg.maxExceptions, s.core, k) && id in s.acts
    ensures BudgetedAt(cfg.maxExceptions, Written(s.core, s.acts[id], now), k)
            <==> !StaleHoldOf(cfg.maxExceptions, s, ActEnd(id, now), k)
  {
  }

  /** A step that is not the end of an action respects the budget of every job. */
  lemma StepRespects(cfg: Config, s: System, step: Step, k: JobId)
    requires cfg.maxExceptions >= 1 && HeadRegistered(s) && BudgetedAt(cfg.maxExceptions, s.core, k)
    requires Enabled(s, step) && !step.ActEnd?
    ensures Respects(cfg.maxExceptions, s.core, Apply(cfg, s, step).core, k)
  {
    match step
    case Deliver(verdict, scan, now) => HandleRespects(cfg, s.core, s.events[0], verdict, scan, now, k);
    case Sweep(victims, renewed, now) => SweepRespects(cfg.maxExceptions, s.core, victims, renewed, now, k);
    case Arrive(key, job) => ArriveRespects(cfg.maxExceptions, s.core, key, job, k);
    case _ =>
  }

  /** A step keeps a job's budget unless it is a stale hold of that job, and then it breaks it. */
  lemma OnlyAStaleHoldOverruns(cfg: Config, s: System, step: Step, k: JobId)
    requires cfg.maxExceptions >= 1 && HeadRegistered(s) && BudgetedAt(cfg.maxExceptions, s.core, k)
    requires Enabled(s, step)
    ensures BudgetedAt(cfg.maxExceptions, Apply(cfg, s, step).core, k)
            <==> !StaleHoldOf(cfg.maxExceptions, s, step, k)
  {
    if step.ActEnd? {
      ActEndBudget(cfg, s, step.id, step.now, k);
    } else {
      StepRespects(cfg, s, step, k);
    }
  }

  // ----- jobs whose actions do not overlap -----

  /** At most one action on job k is in flight, and one begun on the exhausted job still finds it
      exhausted. */
  predicate ActsAt(max: int, s: System, k: JobId) {
    && (forall a, b | a in s.acts && b in s.acts && s.acts[a].key == k && s.acts[b].key == k :: a == b)
    && (forall a | a in s.acts && s.acts[a].key == k ::
          s.acts[a].snapshot.exceptions >= max ==> Exhausted(max, s.core.jobs, k))
  }

  /** As long as no two actions on job k overlapped, its budget holds. */
  predicate BudgetInv(cfg: Config, s: System, k: JobId) {
    k !in s.overlapped ==> BudgetedAt(cfg.maxExceptions, s.core, k) && ActsAt(cfg.maxExceptions, s, k)
  }

  lemma ActBeginKeepsBudget(cfg: Config, s: System, id: nat, key: JobId, req: Request, k: JobId)
    requires BudgetInv(cfg, s, k) && Enabled(s, ActBegin(id, key, req))
    ensures BudgetInv(cfg, Apply(cfg, s, ActBegin(id, key, req)), k)
  {
  }

  lemma ActEndKeepsBudget(cfg: Config, s: System, id: nat, now: int, k: JobId)
    requires cfg.maxExceptions >= 1 && BudgetInv(cfg, s, k) && Enabled(s, ActEnd(id, now))
    ensures BudgetInv(cfg, Apply(cfg, s, ActEnd(id, now)), k)
  {
    if k !in s.overlapped {
      ActEndBudget(cfg, s, id, now, k);
    }
  }

  /** A step that respects the budget and begins or ends no action. */
  lemma CoreStepKeepsBudget(cfg: Config, s: System, t: System, k: JobId)
    requires BudgetInv(cfg, s, k) && t.overlapped == s.overlapped
    requires forall a | a in t.acts :: a in s.acts && t.acts[a] == s.acts[a]
    requires k !in s.overlapped ==> Respects(cfg.maxExceptions, s.core, t.core, k)
    ensures BudgetInv(cfg, t, k)
  {
  }

  lemma OtherStepKeepsBudget(cfg: Config, s: System, step: Step, k: JobId)
    requires cfg.maxExceptions >= 1 && HeadRegistered(s) && BudgetInv(cfg, s, k) && Enabled(s, step)
    requires !step.ActBegin? && !step.ActEnd?
    ensures BudgetInv(cfg, Apply(cfg, s, step), k)
  {
    if k !in s.overlapped {
      StepRespects(cfg, s, step, k);
    }
    CoreStepKeepsBudget(cfg, s, Apply(cfg, s, step), k);
  }

  lemma StepKeepsBudget(cfg: Config, s: System, step: Step, k: JobId)
    requires cfg.maxExceptions >= 1 && HeadRegistered(s) && BudgetInv(cfg, s, k) && Enabled(s, step)
    ensures BudgetInv(cfg, Apply(cfg, s, step), k)
  {
    match step
    case ActBegin(id, key, req) => ActBeginKeepsBudget(cfg, s, id, key, req, k);
    case ActEnd(id, now) => ActEndKeepsBudget(cfg, s, id, now, k);
    case _ => OtherStepKeepsBudget(cfg, s, step, k);
  }

  // ----- what is charged -----

  /** The delivered event costs the job one unit of its budget. */
  predicate Charges(c: Core, e: Event, k: JobId) {
    && ((e.EvExited? && !e.report.hasResult && !e.report.detached) || (e.EvFailed? && e.panicked && !e.detachedErr))
    && e.key == k && StatusOf(c.jobs, k) == RUNNING
    && !Silenced(c, k)
  }

  lemma ExitedCharges(cfg: Config, c: Core, e: Event, verdict: Verdict, now: int)
    requires e.EvExited? && e.key in c.jobs
    ensures var d := OnExited(cfg, c, e.key, e.report, verdict, now);
            e.key in d.jobs ==> d.jobs[e.key].exceptions == c.jobs[e.key].exceptions + One(Charges(c, e, e.key))
  {
  }

  lemma FailedCharges(cfg: Config, c: Core, e: Event, now: int)
    requires e.EvFailed? && e.key in c.jobs
    ensures var d := OnFailed(cfg, c, e.key, e.detachedErr, e.panicked, e.claim, e.released, now);
            e.key in d.jobs && d.jobs[e.key].exceptions == c.jobs[e.key].exceptions + One(Charges(c, e, e.key))
  {
  }

  lemma RecoverChargesNothing(c: Core, scan: seq<JobId>, done: Option<nat>, now: int, k: JobId)
    requires k in c.jobs
    ensures var d := OnRecover(c, scan, done, now); k in d.jobs && d.jobs[k].exceptions == c.jobs[k].exceptions
  {
    ReattachKeepsJobs(c.(jobs := RequeueAll(c.jobs, Stale(c, scan, now), now)), Recoveries(c, scan, now));
  }

  /** A job's failure count moves with Charges and with nothing else, one at a time: neither a
      failed reconnect nor a run that delivered an exit result is ever charged. */
  lemma ChargedExactly(cfg: Config, c: Core, e: Event, verdict: Verdict, scan: seq<JobId>, now: int, k: JobId)
    requires k in c.jobs && k in Handle(cfg, c, e, verdict, scan, now).jobs
    ensures Handle(cfg, c, e, verdict, scan, now).jobs[k].exceptions == c.jobs[k].exceptions + One(Charges(c, e, k))
  {
    match e
    case EvExited(_, key, _) =>
      if k == key {
        ExitedCharges(cfg, c, e, verdict, now);
      }
    case EvFailed(_, key, _, _, _, _) =>
      if k == key {
        FailedCharges(cfg, c, e, now);
      }
    case EvRecover(done) => RecoverChargesNothing(c, scan, done, now, k);
    case _ =>
  }

  /** The charge that uses up the budget holds the job with code 1002; any other requeues it. */
  lemma LastChargeHolds(cfg: Config, c: Core, e: Event, verdict: Verdict, scan: seq<JobId>, now: int, k: JobId)
    requires Charges(c, e, k)
    ensures var d := Handle(cfg, c, e, verdict, scan, now);
            && k in d.jobs && k !in d.running
            && if c.jobs[k].exceptions + 1 >= cfg.maxExceptions
               then d.jobs[k].status == HELD && d.jobs[k].holdCode == SHADOW_EXCEPTION
               else d.jobs[k].status == IDLE
  {
  }
}
