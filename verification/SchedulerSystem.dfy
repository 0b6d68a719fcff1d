/**
 The scheduler core together with everything that feeds it: the bounded event
 channel, the run goroutines, the command handlers that post events, and the queue
 actions that edit job records from outside the core. One step is one delivered
 event, one post, one lease sweep, one half of a queue action, or a new job.

 An action reads the job's record when it begins and writes the edited copy when it
 ends, or fails to; for a running job the shadow's teardown lies in between.
 */
module SchedulerSystem {
  import opened Common
  import opened Jobs
  import opened Actions
  import opened SchedulerCore

  const CAPACITY := 256

  /** `rid` is the run, or the action goroutine, an event comes from; no handler looks at it. */
  datatype Event =
    | EvMatch(key: JobId, claim: string, slot: string)
    | EvStarted(rid: nat, key: JobId, slot: string, claim: string)
    | EvExited(rid: nat, key: JobId, report: Report)
    | EvFailed(rid: nat, key: JobId, detachedErr: bool, panicked: bool, claim: string, released: bool)
    | EvReconnectFailed(rid: nat, key: JobId)
    | EvTeardown(key: JobId, done: Option<nat>)
    | EvDrain(drained: nat)
    | EvRecover(done: Option<nat>)
    | EvPolicy(key: JobId, req: Request)
    | EvPolicyDone(rid: nat, key: JobId)

  /** Live: still to post its terminal event. Lost: that post was dropped. Done: delivered. */
  datatype Phase = Live | Posted | Lost | Done

  /** The run's evStarted: not posted yet, in the channel, delivered, or never to come. */
  datatype Start = NotYet | Queued | Seen | Never

  datatype Run = Run(phase: Phase, start: Start)

  datatype Act = Act(key: JobId, req: Request, snapshot: Job)

  /** A delivered match and the position in `launched` of what became of its claim. */
  datatype Grant = Grant(claim: string, at: nat)

  datatype System = System(
    core: Core,
    events: seq<Event>,
    runs: map<nat, Run>,
    tasks: map<nat, Phase>, // the goroutines that apply policy actions
    acts: map<nat, Act>,
    nextChan: nat,         // channels made so far
    stopping: bool,        // Stop has issued its one drain
    // history
    drainChan: Option<nat>,
    lostChans: set<nat>,   // channels whose event was dropped
    overlapped: set<JobId>, // jobs two actions on which were ever in flight at once
    grants: seq<Grant>)

  datatype Step =
    | Submit(ev: Event)
    | PostStarted(rid: nat, slot: string, claim: string)
    | PostEnd(ev: Event)
    | PostDone(rid: nat)
    | Deliver(verdict: Verdict, scan: seq<JobId>, now: int)
    | Sweep(victims: set<JobId>, renewed: int, now: int)
    | ActBegin(id: nat, key: JobId, req: Request)
    | ActEnd(id: nat, now: int)
    | ActFail(id: nat)
    | Arrive(key: JobId, job: Job)

  predicate Terminal(e: Event) { e.EvExited? || e.EvFailed? || e.EvReconnectFailed? }

  predicate OfRun(e: Event, r: nat) { (Terminal(e) || e.EvStarted?) && e.rid == r }

  function DoneOf(e: Event): Option<nat> {
    if e.EvTeardown? || e.EvRecover? then e.done else if e.EvDrain? then Some(e.drained) else None
  }

  predicate IsRun(l: Launch) { l.RunJob? || l.Reconnect? }

  predicate NoDups(scan: seq<JobId>) { forall i, j | 0 <= i < j < |scan| :: scan[i] != scan[j] }

  /** The terminal events a run goroutine can post. */
  predicate MayEndWith(l: Launch, run: Run, ev: Event)
    requires Terminal(ev)
  {
    match l
    case RunJob(key, _) => ev.key == key && !ev.EvReconnectFailed? && (ev.EvExited? ==> !run.start.NotYet?)
    case Reconnect(key, _) => ev.key == key
    case _ => false
  }

  predicate Enabled(s: System, step: Step) {
    match step
    case Submit(ev) =>
      && !Terminal(ev) && !ev.EvStarted? && !ev.EvPolicyDone?
      && (DoneOf(ev).Some? ==> DoneOf(ev).value == s.nextChan)
      && (ev.EvDrain? ==> !s.stopping)
    case PostStarted(rid, _, _) =>
      rid in s.runs && rid < |s.core.launched| && IsRun(s.core.launched[rid]) && s.runs[rid] == Run(Live, NotYet)
    case PostEnd(ev) =>
      && Terminal(ev) && ev.rid in s.runs && ev.rid < |s.core.launched| && s.runs[ev.rid].phase.Live?
      && MayEndWith(s.core.launched[ev.rid], s.runs[ev.rid], ev)
    case PostDone(rid) =>
      && rid in s.tasks && rid < |s.core.launched| && s.core.launched[rid].ApplyAction?
      && s.tasks[rid].Live?
    case Deliver(_, scan, _) => s.events != [] && NoDups(scan)
    case Sweep(_, _, _) => true
    case ActBegin(id, key, req) =>
      id !in s.acts && key in s.core.jobs && Actions.Verdict(Some(s.core.jobs[key]), req) == ArSuccess
    case ActEnd(id, _) => id in s.acts
    case ActFail(id) => id in s.acts
    case Arrive(key, job) => key !in s.core.jobs && job.exceptions == 0
  }

  function Handle(cfg: Config, c: Core, e: Event, verdict: Verdict, scan: seq<JobId>, now: int): Core {
    match e
    case EvMatch(key, claim, slot) => OnMatch(c, key, claim, slot)
    case EvStarted(_, key, slot, claim) => OnStarted(cfg, c, key, slot, claim, now)
    case EvExited(_, key, report) => OnExited(cfg, c, key, report, verdict, now)
    case EvFailed(_, key, detachedErr, panicked, claim, released) =>
      OnFailed(cfg, c, key, detachedErr, panicked, claim, released, now)
    case EvReconnectFailed(_, key) => OnReconnectFailed(cfg, c, key, now)
    case EvTeardown(key, done) => OnTeardown(c, key, done)
    case EvDrain(done) => OnDrain(cfg, c, done, now)
    case EvRecover(done) => OnRecover(c, scan, done, now)
    case EvPolicy(key, req) => OnPolicy(c, key, req)
    case EvPolicyDone(_, key) => OnPolicyDone(c, key)
  }

  // Which handler each event goes to.

  lemma MatchIs(cfg: Config, c: Core, k: JobId, claim: string, slot: string,
                v: Verdict, scan: seq<JobId>, now: int)
    ensures Handle(cfg, c, EvMatch(k, claim, slot), v, scan, now)
            == OnMatch(c, k, claim, slot)
  {
  }

  lemma StartedIs(cfg: Config, c: Core, rid: nat, k: JobId, slot: string, claim: string,
                  v: Verdict, scan: seq<JobId>, now: int)
    ensures Handle(cfg, c, EvStarted(rid, k, slot, claim), v, scan, now)
            == OnStarted(cfg, c, k, slot, claim, now)
  {
  }

  lemma ExitedIs(cfg: Config, c: Core, rid: nat, k: JobId, report: Report,
                 v: Verdict, scan: seq<JobId>, now: int)
    ensures Handle(cfg, c, EvExited(rid, k, report), v, scan, now)
            == OnExited(cfg, c, k, report, v, now)
  {
  }

  lemma FailedIs(cfg: Config, c: Core, rid: nat, k: JobId, detachedErr: bool, panicked: bool, claim: string,
                 released: bool,
                 v: Verdict, scan: seq<JobId>, now: int)
    ensures Handle(cfg, c, EvFailed(rid, k, detachedErr, panicked, claim, released), v, scan, now)
            == OnFailed(cfg, c, k, detachedErr, panicked, claim, released, now)
  {
  }

  lemma ReconnectFailedIs(cfg: Config, c: Core, rid: nat, k: JobId,
                          v: Verdict, scan: seq<JobId>, now: int)
    ensures Handle(cfg, c, EvReconnectFailed(rid, k), v, scan, now)
            == OnReconnectFailed(cfg, c, k, now)
  {
  }

  lemma TeardownIs(cfg: Config, c: Core, k: JobId, done: Option<nat>,
                   v: Verdict, scan: seq<JobId>, now: int)
    ensures Handle(cfg, c, EvTeardown(k, done), v, scan, now)
            == OnTeardown(c, k, done)
  {
  }

  lemma DrainIs(cfg: Config, c: Core, done: nat,
                v: Verdict, scan: seq<JobId>, now: int)
    ensures Handle(cfg, c, EvDrain(done), v, scan, now)
            == OnDrain(cfg, c, done, now)
  {
  }

  lemma RecoverIs(cfg: Config, c: Core, done: Option<nat>,
                  v: Verdict, scan: seq<JobId>, now: int)
    ensures Handle(cfg, c, EvRecover(done), v, scan, now)
            == OnRecover(c, scan, done, now)
  {
  }

  lemma PolicyIs(cfg: Config, c: Core, k: JobId, req: Request,
                 v: Verdict, scan: seq<JobId>, now: int)
    ensures Handle(cfg, c, EvPolicy(k, req), v, scan, now)
            == OnPolicy(c, k, req)
  {
  }

  lemma PolicyDoneIs(cfg: Config, c: Core, rid: nat, k: JobId,
                     v: Verdict, scan: seq<JobId>, now: int)
    ensures Handle(cfg, c, EvPolicyDone(rid, k), v, scan, now)
            == OnPolicyDone(c, k)
  {
  }

  /** The run the event comes from takes note of its delivery. */
  function Noted(runs: map<nat, Run>, e: Event): map<nat, Run> {
    if e.EvStarted? && e.rid in runs then runs[e.rid := runs[e.rid].(start := Seen)]
    else if Terminal(e) && e.rid in runs then runs[e.rid := runs[e.rid].(phase := Done)]
    else runs
  }

  /** The runs among the launches from position `from` on. */
  function Spawned(launched: seq<Launch>, from: nat): (runs: map<nat, Run>)
    ensures forall i :: i in runs <==> from <= i < |launched| && IsRun(launched[i])
    ensures forall i | i in runs :: runs[i] == Run(Live, if launched[i].Reconnect? then Never else NotYet)
    decreases |launched| - from
  {
    if from >= |launched| then map[]
    else
      var later := Spawned(launched, from + 1);
      if IsRun(launched[from])
      then later[from := Run(Live, if launched[from].Reconnect? then Never else NotYet)] else later
  }

  /** The same for the action goroutines. */
  function TasksNoted(tasks: map<nat, Phase>, e: Event): map<nat, Phase> {
    if e.EvPolicyDone? && e.rid in tasks then tasks[e.rid := Done] else tasks
  }

  function TasksSpawned(launched: seq<Launch>, from: nat): (tasks: map<nat, Phase>)
    ensures forall i :: i in tasks <==> from <= i < |launched| && launched[i].ApplyAction?
    ensures forall i | i in tasks :: tasks[i].Live?
    decreases |launched| - from
  {
    if from >= |launched| then map[]
    else
      var later := TasksSpawned(launched, from + 1);
      if launched[from].ApplyAction? then later[from := Live] else later
  }

  /** The system once the event at the head of the channel has turned the core into c. */
  function Passed(s: System, c: Core): System
    requires s.events != []
  {
    var e := s.events[0];
    s.(core := c,
       events := s.events[1..],
       runs := Noted(s.runs, e) + Spawned(c.launched, |s.core.launched|),
       tasks := TasksNoted(s.tasks, e) + TasksSpawned(c.launched, |s.core.launched|),
       drainChan := if e.EvDrain? then Some(e.drained) else s.drainChan,
       grants := if e.EvMatch? then s.grants + [Grant(e.claim, |s.core.launched|)] else s.grants)
  }

  /** A post into a full channel is dropped. */
  function Submitted(s: System, e: Event): System {
    var s1 := s.(nextChan := if DoneOf(e).Some? then s.nextChan + 1 else s.nextChan,
                 stopping := s.stopping || e.EvDrain?);
    if |s.events| < CAPACITY then s1.(events := s.events + [e])
    else s1.(lostChans := if DoneOf(e).Some? then s.lostChans + {DoneOf(e).value} else s.lostChans)
  }

  function Written(c: Core, act: Act, now: int): Core {
    var job := Edited(act.snapshot, act.req, now);
    c.(jobs := JobsAfter(c.jobs, act.key, act.req, job), archived := HistoryAfter(c.archived, act.key, act.req, job))
  }

  function Apply(cfg: Config, s: System, step: Step): System
    requires Enabled(s, step)
  {
    match step
    case Submit(ev) => Submitted(s, ev)
    case PostStarted(rid, slot, claim) =>
      Submitted(s, EvStarted(rid, s.core.launched[rid].key, slot, claim)).(
        runs := s.runs[rid := Run(Live, if |s.events| < CAPACITY then Queued else Never)])
    case PostEnd(ev) =>
      Submitted(s, ev).(
        runs := s.runs[ev.rid := s.runs[ev.rid].(phase := if |s.events| < CAPACITY then Posted else Lost)])
    case PostDone(rid) =>
      Submitted(s, EvPolicyDone(rid, s.core.launched[rid].key)).(
        tasks := s.tasks[rid := if |s.events| < CAPACITY then Posted else Lost])
    case Deliver(verdict, scan, now) => Passed(s, Handle(cfg, s.core, s.events[0], verdict, scan, now))
    case Sweep(victims, renewed, now) => s.(core := OnSweep(s.core, victims, renewed, now))
    case ActBegin(id, key, req) =>
      s.(acts := s.acts[id := Act(key, req, s.core.jobs[key])],
         overlapped := s.overlapped + if exists a | a in s.acts :: s.acts[a].key == key then {key} else {})
    case ActEnd(id, now) => s.(acts := s.acts - {id}, core := Written(s.core, s.acts[id], now))
    case ActFail(id) => s.(acts := s.acts - {id})
    case Arrive(key, job) => s.(core := Edit(s.core, key, job))
  }

  /** A freshly started schedd over a recovered queue. */
  function Initial(jobs: Queue): System {
    System(Core(jobs, [], map[], 0, false, None, [], {}, []), [], map[], map[], map[], 0, false, None, {}, {}, [])
  }

  function Execute(cfg: Config, s: System, steps: seq<Step>): Option<System> {
    if steps == [] then Some(s)
    else
      var before := Execute(cfg, s, steps[..|steps| - 1]);
      var step := steps[|steps| - 1];
      if before.Some? && Enabled(before.value, step) then Some(Apply(cfg, before.value, step)) else None
  }
}
