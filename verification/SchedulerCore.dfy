/**
 The scheduler core's state and what each event does to it, as functions. The class
 in Scheduler.dfy does the same in place.

 `launched` lists, in order, the goroutines the core started and the event it posts
 to itself; a run is named by its position there. `closed` lists the channels the
 core closed, in order: Go panics on a second close of the same channel.
 */
module SchedulerCore {
  import opened Common
  import opened Jobs
  import opened Actions

  datatype Config = Config(maxExceptions: int, reconnectDisabled: bool, defaultLease: int)

  datatype RunInfo = RunInfo(
    rid: nat,
    claim: string,
    slot: string,
    vacated: bool,
    detached: bool,
    reconnect: bool,
    cancelled: bool,
    waiters: seq<nat>)

  datatype Launch =
    | RunJob(key: JobId, claim: string)
    | Reconnect(key: JobId, claim: string)
    | ReleaseClaim(claim: string)
    | SubmitRemove(key: JobId)
    | ApplyAction(key: JobId, req: Request)

  datatype Core = Core(
    jobs: Queue,
    archived: seq<(JobId, Job)>,
    running: map<JobId, RunInfo>,
    gauge: int,
    draining: bool,
    drainDone: Option<nat>,
    closed: seq<nat>,
    policyPending: set<JobId>,
    launched: seq<Launch>)

  /** What the on-exit policy decided for a job that exited. */
  datatype Verdict = HoldIt(code: int, sub: int) | RequeueIt | RemoveIt | CompleteIt

  /** What the shadow reported: whether the job delivered an exit result, and whether the
      shadow stepped away for a reconnect. */
  datatype Report = Report(hasResult: bool, detached: bool)

  function Launching(c: Core, l: Launch): Core { c.(launched := c.launched + [l]) }

  function Edit(c: Core, k: JobId, job: Job): Core { c.(jobs := c.jobs[k := job]) }

  // ----- matches -----

  function Register(c: Core, k: JobId, claim: string, slot: string, reconnect: bool): Core {
    c.(running := c.running[k := RunInfo(|c.launched|, claim, slot, false, false, reconnect, false, [])],
       gauge := c.gauge + 1,
       launched := c.launched + [if reconnect then Reconnect(k, claim) else RunJob(k, claim)])
  }

  /** The match turns into a run rather than into a surplus claim. */
  predicate Takes(c: Core, k: JobId, claim: string) {
    !c.draining && k.cluster >= 0 && k.proc >= 0 && claim != "" && k !in c.running && StatusOf(c.jobs, k) == IDLE
  }

  function OnMatch(c: Core, k: JobId, claim: string, slot: string): Core {
    if Takes(c, k, claim) then Register(c, k, claim, slot, false) else Launching(c, ReleaseClaim(claim))
  }

  // ----- the life of a run -----

  function OnStarted(cfg: Config, c: Core, k: JobId, slot: string, claim: string, now: int): Core {
    var kept := if k in c.running && claim == "" then c.running[k].claim else claim;
    var c1 := if k in c.running then c.(running := c.running[k := c.running[k].(slot := slot, claim := kept)]) else c;
    if k in c.jobs then Edit(c1, k, Started(c.jobs[k], slot, kept, cfg.defaultLease, now)) else c1
  }

  function Unregister(c: Core, k: JobId): (d: Core)
    ensures d == c.(running := d.running, gauge := d.gauge)
    ensures d.running == c.running - {k} && d.gauge == c.gauge - if k in c.running then 1 else 0
  {
    if k in c.running then c.(running := c.running - {k}, gauge := c.gauge - 1) else c
  }

  function FinishDrain(c: Core): Core {
    if c.draining && c.drainDone.Some? && c.running == map[]
    then c.(closed := c.closed + [c.drainDone.value], drainDone := None)
    else c
  }

  /** The deferred end of every reaping: the drain, then the run's waiters. */
  function Reaped(c: Core, ri: Option<RunInfo>): (d: Core)
    ensures d == c.(drainDone := d.drainDone, closed := d.closed)
  {
    var c1 := FinishDrain(c);
    if ri.Some? then c1.(closed := c1.closed + ri.value.waiters) else c1
  }

  function Registered(c: Core, k: JobId): Option<RunInfo> {
    if k in c.running then Some(c.running[k]) else None
  }

  /** The job's run is being torn down deliberately: its end writes nothing. */
  predicate Silenced(c: Core, k: JobId) {
    k in c.running && (c.running[k].vacated || c.running[k].detached)
  }

  function JobFailed(cfg: Config, c: Core, k: JobId, count: bool, now: int): (d: Core)
    ensures d == c.(jobs := d.jobs)
    ensures forall j | j != k :: (j in d.jobs <==> j in c.jobs) && (j in c.jobs ==> d.jobs[j] == c.jobs[j])
  {
    if StatusOf(c.jobs, k) == RUNNING then Edit(c, k, Failed(c.jobs[k], count, cfg.maxExceptions, now)) else c
  }

  /** The job ran to its end: record the exit, then do what the policy says. */
  function Concluded(c: Core, k: JobId, verdict: Verdict, now: int): (d: Core)
    ensures d == c.(jobs := d.jobs, archived := d.archived, launched := d.launched)
    ensures forall j | j != k :: (j in d.jobs <==> j in c.jobs) && (j in c.jobs ==> d.jobs[j] == c.jobs[j])
    ensures d.launched == c.launched || d.launched == c.launched + [SubmitRemove(k)]
  {
    if k !in c.jobs then c
    else
      var job := Exited(c.jobs[k]);
      match verdict
      case HoldIt(code, sub) => Edit(c, k, HeldOnExit(job, code, sub, now))
      case RequeueIt => Edit(c, k, RequeuedOnExit(job, now))
      case RemoveIt => Launching(Edit(c, k, job), SubmitRemove(k))
      case CompleteIt => c.(jobs := c.jobs - {k}, archived := c.archived + [(k, job.(status := COMPLETED))])
  }

  function OnExited(cfg: Config, c: Core, k: JobId, report: Report, verdict: Verdict, now: int): (d: Core)
    ensures d.running == c.running - {k} && d.gauge == c.gauge - if k in c.running then 1 else 0
    ensures d.draining == c.draining && d.policyPending == c.policyPending
    ensures forall j | j != k :: (j in d.jobs <==> j in c.jobs) && (j in c.jobs ==> d.jobs[j] == c.jobs[j])
    ensures d.launched == c.launched || d.launched == c.launched + [SubmitRemove(k)]
    ensures d.jobs == if Silenced(c, k) || report.detached then c.jobs
                      else if !report.hasResult then JobFailed(cfg, c, k, true, now).jobs
                      else Concluded(c, k, verdict, now).jobs
  {
    var ri := Registered(c, k);
    var c1 := Unregister(c, k);
    var silent := (ri.Some? && (ri.value.detached || ri.value.vacated)) || report.detached;
    var c2 := if silent then c1
              else if !report.hasResult then JobFailed(cfg, c1, k, true, now)
              else Concluded(c1, k, verdict, now);
    Reaped(c2, ri)
  }

  function OnFailed(cfg: Config, c: Core, k: JobId, detachedErr: bool, panicked: bool, claim: string, released: bool,
                    now: int): (d: Core)
    ensures d.running == c.running - {k} && d.gauge == c.gauge - if k in c.running then 1 else 0
    ensures d.draining == c.draining && d.policyPending == c.policyPending
    ensures forall j | j != k :: (j in d.jobs <==> j in c.jobs) && (j in c.jobs ==> d.jobs[j] == c.jobs[j])
    ensures var held := if claim == "" && k in c.running then c.running[k].claim else claim;
            d.launched == c.launched || d.launched == c.launched + [ReleaseClaim(held)]
    ensures d.jobs == if Silenced(c, k) || detachedErr then c.jobs else JobFailed(cfg, c, k, panicked, now).jobs
  {
    var ri := Registered(c, k);
    var c1 := Unregister(c, k);
    if (ri.Some? && ri.value.detached) || detachedErr then Reaped(c1, ri)
    else
      var held := if claim == "" && ri.Some? then ri.value.claim else claim;
      var c2 := if held != "" && !released then Launching(c1, ReleaseClaim(held)) else c1;
      var c3 := if ri.Some? && ri.value.vacated then c2 else JobFailed(cfg, c2, k, panicked, now);
      Reaped(c3, ri)
  }

  function OnReconnectFailed(cfg: Config, c: Core, k: JobId, now: int): (d: Core)
    ensures d.running == c.running - {k} && d.gauge == c.gauge - if k in c.running then 1 else 0
    ensures d.draining == c.draining && d.policyPending == c.policyPending
    ensures forall j | j != k :: (j in d.jobs <==> j in c.jobs) && (j in c.jobs ==> d.jobs[j] == c.jobs[j])
    ensures d.launched == c.launched
    ensures d.jobs == if Silenced(c, k) then c.jobs else JobFailed(cfg, c, k, false, now).jobs
  {
    var ri := Registered(c, k);
    var c1 := Unregister(c, k);
    Reaped(if ri.Some? && (ri.value.vacated || ri.value.detached) then c1 else JobFailed(cfg, c1, k, false, now), ri)
  }

  // ----- teardown and drain -----

  function Vacated(ri: RunInfo): RunInfo { ri.(vacated := true, cancelled := true) }

  function Detached(ri: RunInfo): RunInfo { ri.(detached := true, cancelled := true) }

  function ClosedIf(c: Core, done: Option<nat>): Core {
    if done.Some? then c.(closed := c.closed + [done.value]) else c
  }

  function OnTeardown(c: Core, k: JobId, done: Option<nat>): Core {
    if k !in c.running then ClosedIf(c, done)
    else
      var ri := c.running[k];
      c.(running := c.running[k := Vacated(ri).(waiters := if done.Some? then ri.waiters + [done.value]
                                                else ri.waiters)])
  }

  /** Running jobs among `ks` go back to Idle. */
  function RequeueAll(jobs: Queue, ks: set<JobId>, now: int): Queue {
    map k | k in jobs :: if k in ks && jobs[k].status == RUNNING then Requeued(jobs[k], now) else jobs[k]
  }

  function VacateAll(running: map<JobId, RunInfo>, ks: set<JobId>): map<JobId, RunInfo> {
    map k | k in running :: if k in ks then Vacated(running[k]) else running[k]
  }

  function DetachAll(running: map<JobId, RunInfo>, ks: set<JobId>): map<JobId, RunInfo> {
    map k | k in running :: if k in ks then Detached(running[k]) else running[k]
  }

  function OnDrain(cfg: Config, c: Core, done: nat, now: int): Core {
    var c1 := c.(draining := true);
    if c.running == map[] then ClosedIf(c1, Some(done))
    else if cfg.reconnectDisabled then
      var ks := set k | k in c.running && !c.running[k].vacated;
      c1.(drainDone := Some(done), running := VacateAll(c.running, ks), jobs := RequeueAll(c.jobs, ks, now))
    else
      var ks := set k | k in c.running && !c.running[k].vacated && !c.running[k].detached;
      c1.(drainDone := Some(done), running := DetachAll(c.running, ks))
  }

  // ----- startup recovery -----

  /** A job left Running that no registered run backs. */
  predicate Orphaned(c: Core, k: JobId) {
    k in c.jobs && c.jobs[k].status == RUNNING && k !in c.running
  }

  predicate Recoverable(c: Core, k: JobId, now: int) {
    Orphaned(c, k) && c.jobs[k].claim != "" && LeaseAlive(c.jobs[k], now)
  }

  /** A run to re-attach to, with the claim and slot its record had when it was scanned. */
  datatype Recovered = Recovered(key: JobId, claim: string, slot: string)

  /** The recoverable jobs in scan order. */
  function Recoveries(c: Core, scan: seq<JobId>, now: int): seq<Recovered> {
    if scan == [] then []
    else
      var k := scan[|scan| - 1];
      Recoveries(c, scan[..|scan| - 1], now)
      + if Recoverable(c, k, now) then [Recovered(k, c.jobs[k].claim, c.jobs[k].host)] else []
  }

  function Stale(c: Core, scan: seq<JobId>, now: int): set<JobId> {
    set k | k in scan && Orphaned(c, k) && !Recoverable(c, k, now)
  }

  function Reattach(c: Core, rs: seq<Recovered>): Core {
    if rs == [] then c
    else
      var r := rs[|rs| - 1];
      Register(Reattach(c, rs[..|rs| - 1]), r.key, r.claim, r.slot, true)
  }

  /** `scan` is the queue in the order the store yields it. */
  function OnRecover(c: Core, scan: seq<JobId>, done: Option<nat>, now: int): Core {
    if c.draining then ClosedIf(c, done)
    else ClosedIf(Reattach(c.(jobs := RequeueAll(c.jobs, Stale(c, scan, now), now)), Recoveries(c, scan, now)), done)
  }

  // ----- periodic policy -----

  predicate PolicyApplicable(kind: Kind, status: int) {
    if kind.Remove? then status != 0 && status != REMOVED
    else if kind.Hold? then status == IDLE || status == RUNNING
    else if kind.Release? then status == HELD
    else false
  }

  function OnPolicy(c: Core, k: JobId, req: Request): Core {
    if k in c.policyPending || !PolicyApplicable(req.kind, StatusOf(c.jobs, k)) then c
    else Launching(c.(policyPending := c.policyPending + {k}), ApplyAction(k, req))
  }

  function OnPolicyDone(c: Core, k: JobId): Core { c.(policyPending := c.policyPending - {k}) }

  // ----- lease sweep -----

  /** The run is being neither torn down nor left to a reconnect. */
  predicate LiveRun(running: map<JobId, RunInfo>, k: JobId) {
    k in running && !running[k].vacated && !running[k].detached
  }

  /** Running jobs among `ks` with a live run get their persisted lease renewed. */
  function RenewAll(c: Core, ks: set<JobId>, renewed: int): Queue {
    map k | k in c.jobs ::
      if k in ks && LiveRun(c.running, k) && c.jobs[k].status == RUNNING then c.jobs[k].(renewal := renewed)
        else c.jobs[k]
  }

  /** The leases of all live runs are renewed, then the runs among `victims`, whose match lease
      expired, are vacated and their jobs requeued. */
  function OnSweep(c: Core, victims: set<JobId>, renewed: int, now: int): Core {
    var ks := set k | k in c.running && k in victims && !c.running[k].vacated;
    c.(running := VacateAll(c.running, ks), jobs := RequeueAll(RenewAll(c, c.running.Keys, renewed), ks, now))
  }
}
