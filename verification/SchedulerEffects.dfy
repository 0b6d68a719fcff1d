/**
 What each delivered event does to the core, told in terms of the queue, the registry and the
 launched goroutines alone. The numbers are HTCondor's own: status 1 Idle, 2 Running, 4 Completed,
 5 Held; hold code 3 job policy, 1002 shadow exception.
 */
module SchedulerEffects {
  import opened Common
  import opened Jobs
  import opened Actions
  import opened SchedulerCore
  import opened SchedulerSystem
  import opened SchedulerRegistry

  /** Nothing but job k's record, the history and what is launched may differ in the queue. */
  ghost predicate OnlyJob(c: Core, d: Core, k: JobId) {
    forall j | j != k :: (j in d.jobs <==> j in c.jobs) && (j in c.jobs ==> d.jobs[j] == c.jobs[j])
  }

  /** Nothing but the registry entry of job k may differ in the registry. */
  ghost predicate OnlyRun(c: Core, d: Core, k: JobId) {
    forall j | j != k :: (j in d.running <==> j in c.running) && (j in c.running ==> d.running[j] == c.running[j])
  }

  /** No record, no history entry and no launch. */
  predicate Untouched(c: Core, d: Core) {
    d.jobs == c.jobs && d.archived == c.archived && d.launched == c.launched
  }

  /** The record is off its slot: the host is the last host, and nothing a reconnect needs is left. */
  predicate OffSlot(job: Job, after: Job) {
    && after.host == "" && after.claim == "" && after.renewal == 0
    && after.lastHost == (if job.host == "" then job.lastHost else job.host)
    && after.lastStatus == 2 && after.lease == job.lease && after.starts == job.starts
    && after.statusOnRelease == job.statusOnRelease
  }

  predicate SameHold(job: Job, after: Job) {
    after.holdCode == job.holdCode && after.holdSub == job.holdSub && after.numHolds == job.numHolds
  }

  predicate SameFailures(job: Job, after: Job) {
    after.exceptions == job.exceptions && after.vacateCode == job.vacateCode
  }

  // ----- matches -----

  /** The job can be run: it is queued and Idle, has no run, and the schedd is not draining. */
  predicate Free(c: Core, k: JobId) {
    k in c.jobs && c.jobs[k].status == 1 && k !in c.running && !c.draining
  }

  predicate WellFormed(k: JobId, claim: string) { k.cluster >= 0 && k.proc >= 0 && claim != "" }

  /** A well-formed match for a free job registers a run of it on that claim; any other hands the
      claim back and leaves the registry alone. No match writes a record. */
  lemma MatchOutcome(cfg: Config, c: Core, k: JobId, claim: string, slot: string, v: Verdict, scan: seq<JobId>,
                     now: int)
    ensures var d := Handle(cfg, c, EvMatch(k, claim, slot), v, scan, now);
            && d.jobs == c.jobs && d.archived == c.archived && d.closed == c.closed
            && if Free(c, k) && WellFormed(k, claim)
               then
                 && d.launched == c.launched + [RunJob(k, claim)] && d.gauge == c.gauge + 1
                 && OnlyRun(c, d, k) && k in d.running && d.running[k].rid == |c.launched|
                 && d.running[k].claim == claim && d.running[k].slot == slot && d.running[k].waiters == []
                 && !d.running[k].vacated && !d.running[k].detached && !d.running[k].reconnect
               else d.launched == c.launched + [ReleaseClaim(claim)] && d.running == c.running && d.gauge == c.gauge
  {
  }

  /** A delivered event that launches a fresh run is a well-formed match for a free job, and the run
      is of that job on that claim. */
  lemma OnlyMatchesRun(cfg: Config, c: Core, e: Event, v: Verdict, scan: seq<JobId>, now: int, p: nat)
    requires var d := Handle(cfg, c, e, v, scan, now); |c.launched| <= p < |d.launched| && d.launched[p].RunJob?
    ensures e.EvMatch? && Free(c, e.key) && WellFormed(e.key, e.claim) && p == |c.launched|
    ensures Handle(cfg, c, e, v, scan, now).launched[p] == RunJob(e.key, e.claim)
  {
    match e
    case EvMatch(k, claim, slot) => MatchOutcome(cfg, c, k, claim, slot, v, scan, now);
    case EvRecover(done) =>
      RecoverIs(cfg, c, done, v, scan, now);
      RecoverLaunches(c, scan, done, now);
    case _ =>
  }

  lemma {:induction false} ReattachLaunches(c: Core, rs: seq<Recovered>)
    ensures Prefix(c, Reattach(c, rs)) && |Reattach(c, rs).launched| == |c.launched| + |rs|
    ensures forall p | |c.launched| <= p < |c.launched| + |rs| ::
              Reattach(c, rs).launched[p] == Reconnect(rs[p - |c.launched|].key, rs[p - |c.launched|].claim)
    ensures Reattach(c, rs).jobs == c.jobs && Reattach(c, rs).archived == c.archived
  {
    if rs != [] {
      ReattachLaunches(c, rs[..|rs| - 1]);
    }
  }

  lemma RecoverLaunches(c: Core, scan: seq<JobId>, done: Option<nat>, now: int)
    ensures Prefix(c, OnRecover(c, scan, done, now))
    ensures forall p | |c.launched| <= p < |OnRecover(c, scan, done, now).launched| ::
              OnRecover(c, scan, done, now).launched[p].Reconnect?
  {
    if !c.draining {
      ReattachLaunches(c.(jobs := RequeueAll(c.jobs, Stale(c, scan, now), now)), Recoveries(c, scan, now));
    }
  }

  // ----- starts -----

  /** The run's start is recorded with everything a restarted schedd needs: the slot, the claim the
      event brings or else the run's, a lease and its first renewal. */
  lemma StartOutcome(cfg: Config, c: Core, rid: nat, k: JobId, slot: string, claim: string, v: Verdict,
                     scan: seq<JobId>, now: int)
    ensures var d := Handle(cfg, c, EvStarted(rid, k, slot, claim), v, scan, now);
            var known := if claim != "" then claim else if k in c.running then c.running[k].claim else "";
            && d.archived == c.archived && d.launched == c.launched && OnlyJob(c, d, k) && OnlyRun(c, d, k)
            && (k in d.jobs <==> k in c.jobs) && (k in d.running <==> k in c.running)
            && (k in c.running ==> d.running[k] == c.running[k].(slot := slot, claim := known))
            && (k in c.jobs ==>
                  var job, after := c.jobs[k], d.jobs[k];
                  && after.status == 2 && after.lastStatus == job.status && after.entered == now
                  && after.host == slot && after.claim == (if known != "" then known else job.claim)
                  && after.renewal == now && after.lease == Some(if job.lease.Some? then job.lease.value
                                                                 else cfg.defaultLease)
                  && after.starts == job.starts + 1 && after.completions == job.completions
                  && after.lastHost == job.lastHost && after.statusOnRelease == job.statusOnRelease
                  && SameHold(job, after) && SameFailures(job, after))
  {
    StartedIs(cfg, c, rid, k, slot, claim, v, scan, now);
  }

  // ----- ends of runs -----

  /** The job's run is being torn down or left to a reconnect. */
  predicate TornDown(c: Core, k: JobId) {
    k in c.running && (c.running[k].vacated || c.running[k].detached)
  }

  /** A run died under the record: Idle again, or Held with code 1002 when that was counted and
      uses up the budget. */
  predicate Died(job: Job, after: Job, counted: bool, max: int, now: int) {
    && OffSlot(job, after) && after.entered == now && after.completions == job.completions
    && after.exceptions == job.exceptions + (if counted then 1 else 0)
    && after.vacateCode == (if counted then 1002 else job.vacateCode)
    && if counted && job.exceptions + 1 >= max
       then after.status == 5 && after.holdCode == 1002 && after.holdSub == 0 && after.numHolds == job.numHolds + 1
       else after.status == 1 && SameHold(job, after)
  }

  /** What becomes of the queue when job k's run died: a Running job's record is written, any other
      is left. */
  ghost predicate QueueAfterDeath(c: Core, d: Core, k: JobId, counted: bool, max: int, now: int) {
    && OnlyJob(c, d, k) && d.archived == c.archived
    && (k in c.jobs && c.jobs[k].status == 2 ==> k in d.jobs && Died(c.jobs[k], d.jobs[k], counted, max, now))
    && (k in c.jobs && c.jobs[k].status != 2 ==> k in d.jobs && d.jobs[k] == c.jobs[k])
    && (k !in c.jobs ==> k !in d.jobs)
  }

  /** The registry after the end of job k's run. */
  ghost predicate RunOver(c: Core, d: Core, k: JobId) {
    OnlyRun(c, d, k) && k !in d.running && d.gauge == c.gauge - if k in c.running then 1 else 0
  }

  /** The record of a job that ran to its end, before the policy's decision is carried out. */
  predicate RanToEnd(job: Job, after: Job) {
    OffSlot(job, after) && after.completions == job.completions + 1 && SameFailures(job, after)
  }

  /** What the on-exit policy decided is carried out on the queued job k. */
  predicate CarriedOut(c: Core, d: Core, k: JobId, verdict: Verdict, now: int)
    requires k in c.jobs
  {
    var job := c.jobs[k];
    match verdict
    case HoldIt(code, sub) =>
      && k in d.jobs && RanToEnd(job, d.jobs[k]) && d.archived == c.archived && d.launched == c.launched
      && d.jobs[k].status == 5 && d.jobs[k].holdCode == (if code == 0 then 3 else code) && d.jobs[k].holdSub == sub
      && d.jobs[k].numHolds == job.numHolds + 1 && d.jobs[k].entered == now
    case RequeueIt =>
      && k in d.jobs && RanToEnd(job, d.jobs[k]) && d.archived == c.archived && d.launched == c.launched
      && d.jobs[k].status == 1 && SameHold(job, d.jobs[k]) && d.jobs[k].entered == now
    case RemoveIt =>
      && k in d.jobs && RanToEnd(job, d.jobs[k]) && d.archived == c.archived
      && d.launched == c.launched + [SubmitRemove(k)]
      && d.jobs[k].status == job.status && SameHold(job, d.jobs[k]) && d.jobs[k].entered == job.entered
    case CompleteIt =>
      && k !in d.jobs && d.launched == c.launched && |d.archived| == |c.archived| + 1 && c.archived <= d.archived
      && d.archived[|c.archived|].0 == k && RanToEnd(job, d.archived[|c.archived|].1)
      && d.archived[|c.archived|].1.status == 4 && SameHold(job, d.archived[|c.archived|].1)
  }

  lemma DeathOutcome(cfg: Config, c: Core, k: JobId, counted: bool, now: int)
    ensures QueueAfterDeath(c, JobFailed(cfg, c, k, counted, now), k, counted, cfg.maxExceptions, now)
  {
  }

  lemma ConclusionOutcome(c: Core, k: JobId, v: Verdict, now: int)
    requires k in c.jobs
    ensures OnlyJob(c, Concluded(c, k, v, now), k) && CarriedOut(c, Concluded(c, k, v, now), k, v, now)
  {
  }

  /** Reaping a run leaves the queue, the history and the launches as they are. */
  lemma ReapKeepsQueue(cfg: Config, c: Core, k: JobId, report: Report, v: Verdict, now: int)
    ensures var d := OnExited(cfg, c, k, report, v, now);
            RunOver(c, d, k)
            && Untouched(if TornDown(c, k) || report.detached then c
                         else if !report.hasResult then JobFailed(cfg, c, k, true, now)
                         else Concluded(c, k, v, now), d)
  {
  }

  /** The end of a run that is not torn down and did not detach: a result is concluded as the policy
      says, no result is a counted failure. Any other end touches neither queue nor history. */
  lemma ExitOutcome(cfg: Config, c: Core, rid: nat, k: JobId, report: Report, v: Verdict, scan: seq<JobId>, now: int)
    ensures var d := Handle(cfg, c, EvExited(rid, k, report), v, scan, now);
            && RunOver(c, d, k)
            && if TornDown(c, k) || report.detached then Untouched(c, d)
               else if !report.hasResult then
                 QueueAfterDeath(c, d, k, true, cfg.maxExceptions, now) && d.launched == c.launched
               else if k !in c.jobs then Untouched(c, d)
               else OnlyJob(c, d, k) && CarriedOut(c, d, k, v, now)
  {
    ExitedIs(cfg, c, rid, k, report, v, scan, now);
    ReapKeepsQueue(cfg, c, k, report, v, now);
    DeathOutcome(cfg, c, k, true, now);
    if k in c.jobs {
      ConclusionOutcome(c, k, v, now);
    }
  }

  /** The claim is handed back unless the run gave it up itself or is being left to a reconnect. */
  lemma FailReleases(cfg: Config, c: Core, k: JobId, detachedErr: bool, panicked: bool, claim: string,
                     released: bool, now: int)
    ensures var d := OnFailed(cfg, c, k, detachedErr, panicked, claim, released, now);
            var known := if claim != "" then claim else if k in c.running then c.running[k].claim else "";
            var left := detachedErr || (k in c.running && c.running[k].detached);
            && d.archived == c.archived
            && d.launched == if !left && !released && known != "" then c.launched + [ReleaseClaim(known)]
                             else c.launched
  {
  }

  /** A failed run's claim is handed back unless the run gave it up itself, detached, or is being left
      to a reconnect; the job fails unless the run is torn down, counted only for a panic. */
  lemma FailOutcome(cfg: Config, c: Core, rid: nat, k: JobId, detachedErr: bool, panicked: bool, claim: string,
                    released: bool, v: Verdict, scan: seq<JobId>, now: int)
    ensures var d := Handle(cfg, c, EvFailed(rid, k, detachedErr, panicked, claim, released), v, scan, now);
            var known := if claim != "" then claim else if k in c.running then c.running[k].claim else "";
            var left := detachedErr || (k in c.running && c.running[k].detached);
            && RunOver(c, d, k)
            && d.launched == (if !left && !released && known != "" then c.launched + [ReleaseClaim(known)]
                              else c.launched)
            && if left || TornDown(c, k) then d.jobs == c.jobs && d.archived == c.archived
               else QueueAfterDeath(c, d, k, panicked, cfg.maxExceptions, now)
  {
    FailedIs(cfg, c, rid, k, detachedErr, panicked, claim, released, v, scan, now);
    FailReleases(cfg, c, k, detachedErr, panicked, claim, released, now);
    DeathOutcome(cfg, c, k, panicked, now);
  }

  /** A failed reconnect requeues the job, never counted, unless the run is torn down. */
  lemma ReconnectFailOutcome(cfg: Config, c: Core, rid: nat, k: JobId, v: Verdict, scan: seq<JobId>, now: int)
    ensures var d := Handle(cfg, c, EvReconnectFailed(rid, k), v, scan, now);
            && RunOver(c, d, k) && d.launched == c.launched
            && if TornDown(c, k) then d.jobs == c.jobs && d.archived == c.archived
               else QueueAfterDeath(c, d, k, false, cfg.maxExceptions, now)
  {
    ReconnectFailedIs(cfg, c, rid, k, v, scan, now);
  }

  // ----- teardown, drain, sweep -----

  /** The run is told to stop, as vacated or as detached, and is otherwise as it was. */
  predicate Stopped(ri: RunInfo, after: RunInfo, vacated: bool, detached: bool) {
    && after.vacated == vacated && after.detached == detached && after.cancelled
    && after.rid == ri.rid && after.claim == ri.claim && after.slot == ri.slot && after.reconnect == ri.reconnect
  }

  /** A deliberate requeue of a Running job; any other record is left. */
  predicate SentBack(job: Job, after: Job, now: int) {
    if job.status == 2
    then OffSlot(job, after) && after.status == 1 && after.entered == now && after.completions == job.completions
         && SameHold(job, after) && SameFailures(job, after)
    else after == job
  }

  /** A registered run is vacated and remembers who waits for its end; without one the waiter is
      answered at once. No record is written. */
  lemma TeardownOutcome(cfg: Config, c: Core, k: JobId, done: Option<nat>, v: Verdict, scan: seq<JobId>, now: int)
    ensures var d := Handle(cfg, c, EvTeardown(k, done), v, scan, now);
            var waiter := if done.Some? then [done.value] else [];
            && Untouched(c, d) && OnlyRun(c, d, k) && (k in d.running <==> k in c.running)
            && d.closed == (if k in c.running then c.closed else c.closed + waiter)
            && (k in c.running ==>
                  && Stopped(c.running[k], d.running[k], true, c.running[k].detached)
                  && d.running[k].waiters == c.running[k].waiters + waiter)
  {
    TeardownIs(cfg, c, k, done, v, scan, now);
  }

  /** The drain stops every run: with reconnects disabled each one not yet vacated is vacated and its
      Running job goes back to Idle; otherwise each live one is detached and its job left Running. */
  lemma DrainOutcome(cfg: Config, c: Core, done: nat, v: Verdict, scan: seq<JobId>, now: int)
    ensures var d := Handle(cfg, c, EvDrain(done), v, scan, now);
            && d.draining && d.archived == c.archived && d.launched == c.launched && d.running.Keys == c.running.Keys
            && (forall k | k in c.running ::
                  && d.running[k].waiters == c.running[k].waiters
                  && if c.running[k].vacated then d.running[k] == c.running[k]
                     else if cfg.reconnectDisabled
                     then Stopped(c.running[k], d.running[k], true, c.running[k].detached)
                     else if c.running[k].detached then d.running[k] == c.running[k]
                     else Stopped(c.running[k], d.running[k], false, true))
            && d.jobs.Keys == c.jobs.Keys
            && forall k | k in c.jobs ::
                 if cfg.reconnectDisabled && k in c.running && !c.running[k].vacated
                 then SentBack(c.jobs[k], d.jobs[k], now)
                 else d.jobs[k] == c.jobs[k]
  {
    DrainIs(cfg, c, done, v, scan, now);
  }

  /** A sweep vacates the victims not yet vacated and leaves every other run as it is. */
  lemma SweepRuns(c: Core, victims: set<JobId>, renewed: int, now: int)
    ensures var d := OnSweep(c, victims, renewed, now);
            && d.running.Keys == c.running.Keys && d.archived == c.archived && d.launched == c.launched
            && forall k | k in c.running ::
                 if k in victims && !c.running[k].vacated
                 then Stopped(c.running[k], d.running[k], true, c.running[k].detached)
                      && d.running[k].waiters == c.running[k].waiters
                 else d.running[k] == c.running[k]
  {
  }

  /** It sends the Running jobs of those victims back, renews the persisted lease of every other
      Running job with a live run, and touches no other record. */
  lemma SweepJobs(c: Core, victims: set<JobId>, renewed: int, now: int)
    ensures var d := OnSweep(c, victims, renewed, now);
            && d.jobs.Keys == c.jobs.Keys
            && forall k | k in c.jobs ::
                 if k in c.running && k in victims && !c.running[k].vacated && c.jobs[k].status == 2
                 then SentBack(c.jobs[k], d.jobs[k], now)
                 else if k in c.running && !TornDown(c, k) && c.jobs[k].status == 2
                 then d.jobs[k] == c.jobs[k].(renewal := renewed)
                 else d.jobs[k] == c.jobs[k]
  {
  }

  // ----- policy actions -----

  /** An action on a job is started exactly when none is pending and the job's current status admits
      it: removal of any job not yet removed, a hold of an Idle or Running one, a release of a Held
      one. */
  lemma PolicyOutcome(cfg: Config, c: Core, k: JobId, req: Request, v: Verdict, scan: seq<JobId>, now: int)
    ensures var d := Handle(cfg, c, EvPolicy(k, req), v, scan, now);
            var admitted := k in c.jobs && match req.kind
                                           case Remove => c.jobs[k].status !in {0, 3}
                                           case Hold => c.jobs[k].status in {1, 2}
                                           case Release => c.jobs[k].status == 5
                                           case RemoveX => false;
            && d.jobs == c.jobs && d.archived == c.archived && d.running == c.running
            && if admitted && k !in c.policyPending
               then d.launched == c.launched + [ApplyAction(k, req)] && d.policyPending == c.policyPending + {k}
               else d == c
  {
    PolicyIs(cfg, c, k, req, v, scan, now);
  }

  // ----- recovery -----

  /** The job was left Running by an earlier schedd. */
  predicate LeftRunning(c: Core, k: JobId) { k in c.jobs && c.jobs[k].status == 2 && k !in c.running }

  /** Its claim is known and its lease has not run out since it was last renewed. */
  predicate WithinLease(job: Job, now: int) {
    job.claim != "" && job.lease.Some? && job.lease.value > 0 && job.renewal > 0 && now < job.renewal + job.lease.value
  }

  predicate Survives(c: Core, k: JobId, now: int) { LeftRunning(c, k) && WithinLease(c.jobs[k], now) }

  /** The entry is of a scanned survivor, with the claim and slot of its record. */
  predicate Recovers(c: Core, scan: seq<JobId>, now: int, r: Recovered) {
    r.key in scan && Survives(c, r.key, now) && r.claim == c.jobs[r.key].claim && r.slot == c.jobs[r.key].host
  }

  predicate AllRecover(c: Core, scan: seq<JobId>, now: int, rs: seq<Recovered>) {
    forall i | 0 <= i < |rs| :: Recovers(c, scan, now, rs[i])
  }

  lemma {:induction false} RecoveriesAre(c: Core, scan: seq<JobId>, now: int)
    ensures AllRecover(c, scan, now, Recoveries(c, scan, now))
  {
    if scan != [] {
      var n := |scan| - 1;
      RecoveriesAre(c, scan[..n], now);
      var before, rs := Recoveries(c, scan[..n], now), Recoveries(c, scan, now);
      forall i | 0 <= i < |rs|
        ensures Recovers(c, scan, now, rs[i])
      {
        if i < |before| {
          assert rs[i] == before[i] && Recovers(c, scan[..n], now, before[i]);
        } else {
          assert rs[i].key == scan[n];
        }
      }
    }
  }

  /** Every survivor of the scan is recovered, at some position and at no other. */
  lemma {:induction false} RecoveredAt(c: Core, scan: seq<JobId>, now: int, k: JobId) returns (i: nat)
    requires NoDups(scan) && k in scan && Survives(c, k, now)
    ensures var rs := Recoveries(c, scan, now);
            i < |rs| && rs[i].key == k && forall j | 0 <= j < |rs| && rs[j].key == k :: j == i
  {
    var n := |scan| - 1;
    var before := Recoveries(c, scan[..n], now);
    RecoveriesAre(c, scan[..n], now);
    if scan[n] == k {
      i := |before|;
    } else {
      assert k in scan[..n];
      i := RecoveredAt(c, scan[..n], now, k);
      var rs := Recoveries(c, scan, now);
      assert forall j | 0 <= j < |before| :: rs[j] == before[j];
    }
  }

  lemma {:induction false} ReattachEntry(c: Core, rs: seq<Recovered>, i: nat)
    requires i < |rs| && forall j | i < j < |rs| :: rs[j].key != rs[i].key
    ensures var d := Reattach(c, rs);
            && rs[i].key in d.running
            && d.running[rs[i].key]
               == RunInfo(|c.launched| + i, rs[i].claim, rs[i].slot, false, false, true, false, [])
  {
    var n := |rs| - 1;
    if i < n {
      ReattachEntry(c, rs[..n], i);
    } else {
      ReattachLaunches(c, rs[..n]);
    }
  }

  lemma {:induction false} ReattachOther(c: Core, rs: seq<Recovered>, k: JobId)
    requires forall i | 0 <= i < |rs| :: rs[i].key != k
    ensures var d := Reattach(c, rs);
            (k in d.running <==> k in c.running) && (k in c.running ==> d.running[k] == c.running[k])
  {
    if rs != [] {
      ReattachOther(c, rs[..|rs| - 1], k);
    }
  }

  /** A scanned job left Running is re-attached on the claim and slot of its record exactly when it is
      within its lease, and goes back to Idle otherwise. No other job and no other run is touched. */
  lemma RecoverOutcome(cfg: Config, c: Core, done: Option<nat>, v: Verdict, scan: seq<JobId>, now: int, k: JobId)
    requires NoDups(scan)
    ensures var d := Handle(cfg, c, EvRecover(done), v, scan, now);
            && d.archived == c.archived && (k in d.jobs <==> k in c.jobs)
            && if c.draining || k !in scan || !LeftRunning(c, k) then
                 && (k in c.jobs ==> d.jobs[k] == c.jobs[k])
                 && (k in d.running <==> k in c.running) && (k in c.running ==> d.running[k] == c.running[k])
               else if WithinLease(c.jobs[k], now) then
                 && d.jobs[k] == c.jobs[k] && k in d.running && d.running[k].reconnect
                 && d.running[k].claim == c.jobs[k].claim && d.running[k].slot == c.jobs[k].host
                 && !TornDown(d, k) && |c.launched| <= d.running[k].rid < |d.launched|
                 && d.launched[d.running[k].rid] == Reconnect(k, c.jobs[k].claim)
               else SentBack(c.jobs[k], d.jobs[k], now) && k !in d.running
  {
    RecoverIs(cfg, c, done, v, scan, now);
    if !c.draining {
      RecoverJobs(c, done, scan, now, k);
      RecoverRuns(c, done, scan, now, k);
    }
  }

  lemma RecoverJobs(c: Core, done: Option<nat>, scan: seq<JobId>, now: int, k: JobId)
    requires !c.draining
    ensures var d := OnRecover(c, scan, done, now);
            && d.archived == c.archived && (k in d.jobs <==> k in c.jobs)
            && (k in c.jobs ==> if k in scan && LeftRunning(c, k) && !Survives(c, k, now)
                                then SentBack(c.jobs[k], d.jobs[k], now) else d.jobs[k] == c.jobs[k])
  {
    ReattachLaunches(c.(jobs := RequeueAll(c.jobs, Stale(c, scan, now), now)), Recoveries(c, scan, now));
  }

  lemma RecoverRuns(c: Core, done: Option<nat>, scan: seq<JobId>, now: int, k: JobId)
    requires NoDups(scan) && !c.draining
    ensures var d := OnRecover(c, scan, done, now);
            if k in scan && Survives(c, k, now)
            then
              && k in d.running && |c.launched| <= d.running[k].rid < |d.launched|
              && d.running[k] == RunInfo(d.running[k].rid, c.jobs[k].claim, c.jobs[k].host, false, false, true, false,
                                         [])
              && d.launched[d.running[k].rid] == Reconnect(k, c.jobs[k].claim)
            else (k in d.running <==> k in c.running) && (k in c.running ==> d.running[k] == c.running[k])
  {
    var c1 := c.(jobs := RequeueAll(c.jobs, Stale(c, scan, now), now));
    var rs := Recoveries(c, scan, now);
    RecoveriesAre(c, scan, now);
    if k in scan && Survives(c, k, now) {
      var i := RecoveredAt(c, scan, now, k);
      ReattachEntry(c1, rs, i);
      ReattachLaunches(c1, rs);
    } else {
      ReattachOther(c1, rs, k);
    }
  }

  /** A scan of the whole queue outside a drain leaves no Running job without a run. */
  lemma RecoveryLeavesNoOrphan(cfg: Config, c: Core, done: Option<nat>, v: Verdict, scan: seq<JobId>, now: int,
                               k: JobId)
    requires NoDups(scan) && !c.draining && forall j | j in c.jobs :: j in scan
    ensures !LeftRunning(Handle(cfg, c, EvRecover(done), v, scan, now), k)
  {
    RecoverOutcome(cfg, c, done, v, scan, now, k);
  }

  // ----- restarts -----

  /** The core of a schedd restarted over the queue that `c` left behind. */
  function Restarted(c: Core): Core { Initial(c.jobs).core }

  /** The recovered run is the one the record tells of. */
  predicate PickedUp(d: Core, k: JobId, claim: string, slot: string) {
    && k in d.running && d.running[k].claim == claim && d.running[k].slot == slot && d.running[k].reconnect
    && k in d.jobs && d.jobs[k].status == 2
  }

  /** The job waits for a new match. */
  predicate GivenUp(d: Core, k: JobId) {
    k !in d.running && k in d.jobs && d.jobs[k].status == 1 && d.jobs[k].host == "" && d.jobs[k].claim == ""
  }

  /** A schedd restarted after a start picks the run up on the very claim and slot of that start, if
      and only if a claim was recorded and the lease has not run out since; otherwise the job is
      requeued. */
  lemma StartSurvivesRestart(cfg: Config, c: Core, rid: nat, k: JobId, slot: string, claim: string, started: int,
                             done: Option<nat>, v: Verdict, scan: seq<JobId>, now: int)
    requires k in c.jobs && NoDups(scan) && k in scan
    ensures var known := if claim != "" then claim else if k in c.running then c.running[k].claim else "";
            var stored := if known != "" then known else c.jobs[k].claim;
            var lease := if c.jobs[k].lease.Some? then c.jobs[k].lease.value else cfg.defaultLease;
            var d := Handle(cfg, c, EvStarted(rid, k, slot, claim), v, scan, started);
            var after := Handle(cfg, Restarted(d), EvRecover(done), v, scan, now);
            if stored != "" && lease > 0 && started > 0 && now < started + lease
            then PickedUp(after, k, stored, slot) else GivenUp(after, k)
  {
    StartOutcome(cfg, c, rid, k, slot, claim, v, scan, started);
    var d := Handle(cfg, c, EvStarted(rid, k, slot, claim), v, scan, started);
    RecoverOutcome(cfg, Restarted(d), done, v, scan, now, k);
  }

  /** A sweep puts the end of a live run's lease off: a restart after it counts from the sweep. */
  lemma RenewalSurvivesRestart(cfg: Config, c: Core, k: JobId, victims: set<JobId>, renewed: int, done: Option<nat>,
                               v: Verdict, scan: seq<JobId>, now: int)
    requires k in c.jobs && c.jobs[k].status == 2 && k in c.running && !TornDown(c, k) && k !in victims
    requires NoDups(scan) && k in scan
    ensures var job := c.jobs[k];
            var after := Handle(cfg, Restarted(OnSweep(c, victims, renewed, renewed)), EvRecover(done), v, scan, now);
            if job.claim != "" && job.lease.Some? && job.lease.value > 0 && renewed > 0
               && now < renewed + job.lease.value
            then PickedUp(after, k, job.claim, job.host) else GivenUp(after, k)
  {
    SweepJobs(c, victims, renewed, renewed);
    RecoverOutcome(cfg, Restarted(OnSweep(c, victims, renewed, renewed)), done, v, scan, now, k);
  }

  // ----- for whole runs -----

  /** Launches are only ever added. */
  lemma HandleGrows(cfg: Config, c: Core, e: Event, v: Verdict, scan: seq<JobId>, now: int)
    ensures Prefix(c, Handle(cfg, c, e, v, scan, now))
  {
    if e.EvRecover? {
      RecoverIs(cfg, c, e.done, v, scan, now);
      RecoverLaunches(c, scan, e.done, now);
    }
  }

  /** The job is in the queue or its record in the history. */
  predicate Kept(c: Core, k: JobId) { k in c.jobs || exists i :: 0 <= i < |c.archived| && c.archived[i].0 == k }

  lemma ArchivedOn(c: Core, d: Core, k: JobId)
    requires Kept(c, k) && c.archived <= d.archived && (k in c.jobs ==> Kept(d, k))
    ensures Kept(d, k)
  {
    if k !in c.jobs {
      var i :| 0 <= i < |c.archived| && c.archived[i].0 == k;
      assert d.archived[i].0 == k;
    }
  }

  lemma HandleKeepsJob(cfg: Config, c: Core, e: Event, v: Verdict, scan: seq<JobId>, now: int, k: JobId)
    requires Kept(c, k)
    ensures Kept(Handle(cfg, c, e, v, scan, now), k)
  {
    if e.EvExited? {
      ExitKeepsJob(cfg, c, e.rid, e.key, e.report, v, scan, now, k);
    } else {
      OnlyExitsArchive(cfg, c, e, v, scan, now, k);
      ArchivedOn(c, Handle(cfg, c, e, v, scan, now), k);
    }
  }

  lemma ExitKeepsJob(cfg: Config, c: Core, rid: nat, key: JobId, report: Report, v: Verdict, scan: seq<JobId>,
                     now: int, k: JobId)
    requires Kept(c, k)
    ensures Kept(Handle(cfg, c, EvExited(rid, key, report), v, scan, now), k)
  {
    ExitOutcome(cfg, c, rid, key, report, v, scan, now);
    var d := Handle(cfg, c, EvExited(rid, key, report), v, scan, now);
    if key in c.jobs && key !in d.jobs {
      assert d.archived[|c.archived|].0 == key;
    }
    ArchivedOn(c, d, k);
  }

  /** No event but the end of a run takes a job out of the queue or writes the history. */
  lemma OnlyExitsArchive(cfg: Config, c: Core, e: Event, v: Verdict, scan: seq<JobId>, now: int, k: JobId)
    requires !e.EvExited?
    ensures var d := Handle(cfg, c, e, v, scan, now); d.archived == c.archived && (k in d.jobs <==> k in c.jobs)
  {
    match e
    case EvFailed(rid, key, detachedErr, panicked, claim, released) =>
      FailOutcome(cfg, c, rid, key, detachedErr, panicked, claim, released, v, scan, now);
    case EvReconnectFailed(rid, key) => ReconnectFailOutcome(cfg, c, rid, key, v, scan, now);
    case EvRecover(done) => RecoverKeepsJobs(cfg, c, done, v, scan, now, k);
    case EvDrain(done) => DrainOutcome(cfg, c, done, v, scan, now);
    case _ =>
  }

  lemma RecoverKeepsJobs(cfg: Config, c: Core, done: Option<nat>, v: Verdict, scan: seq<JobId>, now: int, k: JobId)
    ensures var d := Handle(cfg, c, EvRecover(done), v, scan, now);
            d.archived == c.archived && (k in d.jobs <==> k in c.jobs)
  {
    RecoverIs(cfg, c, done, v, scan, now);
    if !c.draining {
      RecoverJobs(c, done, scan, now, k);
    }
  }
}
