/** The scheduler core as the object whose fields the event loop updates in place. */
module Scheduler {
  import opened Common
  import opened Jobs
  import opened Actions
  import opened SchedulerCore
  import opened MatchTable
  import opened LeaseSweep
  import Policy

  class Scheduler {
    const cfg: Config
    var jobs: Queue
    var archived: seq<(JobId, Job)>
    var running: map<JobId, RunInfo>
    var gauge: int
    var draining: bool
    var drainDone: Option<nat>
    var closed: seq<nat>
    var policyPending: set<JobId>
    var launched: seq<Launch>

    ghost function View(): Core
      reads this
    {
      Core(jobs, archived, running, gauge, draining, drainDone, closed, policyPending, launched)
    }

    constructor (cfg: Config, jobs: Queue)
      ensures this.cfg == cfg
      ensures View() == Core(jobs, [], map[], 0, false, None, [], {}, [])
    {
      this.cfg := cfg;
      this.jobs, archived := jobs, [];
      running, gauge := map[], 0;
      draining, drainDone := false, None;
      closed, policyPending, launched := [], {}, [];
    }

    method Launch(l: Launch)
      modifies this`launched
      ensures launched == old(launched) + [l]
    {
      launched := launched + [l];
    }

    method HandleMatch(k: JobId, claim: string, slot: string)
      modifies this
      ensures View() == OnMatch(old(View()), k, claim, slot)
    {
      if draining {
        Launch(ReleaseClaim(claim));
        return;
      }
      if k.cluster < 0 || k.proc < 0 || claim == "" {
        Launch(ReleaseClaim(claim));
        return;
      }
      if k in running {
        Launch(ReleaseClaim(claim));
        return;
      }
      if StatusOf(jobs, k) != IDLE {
        Launch(ReleaseClaim(claim));
        return;
      }
      running := running[k := RunInfo(|launched|, claim, slot, false, false, false, false, [])];
      gauge := gauge + 1;
      Launch(RunJob(k, claim));
    }

    method HandleStarted(k: JobId, slot: string, claim: string, now: int)
      modifies this
      ensures View() == OnStarted(cfg, old(View()), k, slot, claim, now)
    {
      var kept := claim;
      if k in running {
        var ri := running[k].(slot := slot);
        if claim != "" {
          ri := ri.(claim := claim);
        }
        kept := ri.claim;
        running := running[k := ri];
      }
      if k in jobs {
        jobs := jobs[k := Started(jobs[k], slot, kept, cfg.defaultLease, now)];
      }
    }

    method FinishDrainIfEmpty()
      modifies this`closed, this`drainDone
      ensures View() == FinishDrain(old(View()))
    {
      if draining && drainDone.Some? && |running| == 0 {
        closed := closed + [drainDone.value];
        drainDone := None;
      }
    }

    method ReapWaiters(ri: RunInfo)
      modifies this`closed
      ensures closed == old(closed) + ri.waiters
    {
      var i := 0;
      while i < |ri.waiters|
        invariant 0 <= i <= |ri.waiters|
        invariant closed == old(closed) + ri.waiters[..i]
      {
        closed := closed + [ri.waiters[i]];
        i := i + 1;
      }
    }

    /** The deferred calls at the end of every handler that reaps a run. */
    method Reap(ri: Option<RunInfo>)
      modifies this`closed, this`drainDone
      ensures View() == Reaped(old(View()), ri)
    {
      FinishDrainIfEmpty();
      if ri.Some? {
        ReapWaiters(ri.value);
      }
    }

    /** Takes the run out of the registry, cancelling it. */
    method Drop(k: JobId) returns (ri: Option<RunInfo>)
      modifies this`running, this`gauge
      ensures ri == Registered(old(View()), k)
      ensures View() == Unregister(old(View()), k)
    {
      ri := None;
      if k in running {
        ri := Some(running[k]);
        running := running - {k};
        gauge := gauge - 1;
      }
    }

    method FailJob(k: JobId, count: bool, now: int)
      modifies this`jobs
      ensures View() == JobFailed(cfg, old(View()), k, count, now)
    {
      if StatusOf(jobs, k) != RUNNING {
        return;
      }
      var job := OffHost(jobs[k]).(lastStatus := RUNNING, entered := now);
      if count {
        job := job.(exceptions := job.exceptions + 1, vacateCode := SHADOW_EXCEPTION);
      }
      if count && job.exceptions >= cfg.maxExceptions {
        job := job.(status := HELD, holdCode := SHADOW_EXCEPTION, holdSub := 0, numHolds := job.numHolds + 1);
      } else {
        job := job.(status := IDLE);
      }
      jobs := jobs[k := job];
    }

    method Conclude(k: JobId, verdict: Verdict, now: int)
      modifies this`jobs, this`archived, this`launched
      ensures View() == Concluded(old(View()), k, verdict, now)
    {
      if k !in jobs {
        return;
      }
      jobs := jobs[k := Exited(jobs[k])];
      match verdict
      case HoldIt(code, sub) => jobs := jobs[k := HeldOnExit(jobs[k], code, sub, now)];
      case RequeueIt => jobs := jobs[k := RequeuedOnExit(jobs[k], now)];
      case RemoveIt => Launch(SubmitRemove(k));
      case CompleteIt =>
        archived := archived + [(k, jobs[k].(status := COMPLETED))];
        jobs := jobs - {k};
    }

    /** Removes the claim's match record, if a claim is known. */
    method Forget(table: Table, claim: string)
      modifies table`recs
      ensures table.recs == if claim != "" then old(table.recs) - {table.pub(claim)} else old(table.recs)
    {
      if claim != "" {
        var _ := table.Remove(claim);
      }
    }

    /** `ad` is what reading the job back gives once its exit is recorded. */
    method HandleExited(table: Table, k: JobId, report: Report, ad: Option<Policy.Ad>, sys: Option<Policy.System>,
                        now: int)
      modifies this, table`recs
      ensures View() == OnExited(cfg, old(View()), k, report, Policy.ExitVerdict(ad, sys), now)
      ensures table.recs == if k in old(running)
                            then old(table.recs) - {table.pub(old(running)[k].claim)} else old(table.recs)
    {
      var ri := Drop(k);
      if ri.Some? {
        var _ := table.Remove(ri.value.claim);
      }
      if ri.Some? && ri.value.detached {
      } else if ri.Some? && ri.value.vacated {
      } else if report.detached {
      } else if !report.hasResult {
        FailJob(k, true, now);
      } else {
        Conclude(k, Policy.ExitVerdict(ad, sys), now);
      }
      Reap(ri);
    }

    method HandleFailed(table: Table, k: JobId, detachedErr: bool, panicked: bool, claim: string, released: bool,
                        now: int)
      modifies this, table`recs
      ensures View() == OnFailed(cfg, old(View()), k, detachedErr, panicked, claim, released, now)
      ensures var detached := (k in old(running) && old(running)[k].detached) || detachedErr;
              var gone := if k in old(running) && (detached || claim == "") then Some(old(running)[k].claim)
                          else if !detached && claim != "" then Some(claim) else None;
              table.recs == if gone.Some? && (detached || gone.value != "")
                            then old(table.recs) - {table.pub(gone.value)} else old(table.recs)
    {
      var ri := Drop(k);
      if (ri.Some? && ri.value.detached) || detachedErr {
        if ri.Some? {
          var _ := table.Remove(ri.value.claim);
        }
        Reap(ri);
        return;
      }
      var held := claim;
      if held == "" && ri.Some? {
        held := ri.value.claim;
      }
      Forget(table, held);
      if held != "" && !released {
        Launch(ReleaseClaim(held));
      }
      if !(ri.Some? && ri.value.vacated) {
        FailJob(k, panicked, now);
      }
      Reap(ri);
    }

    method HandleReconnectFailed(table: Table, k: JobId, claim: string, now: int)
      modifies this, table`recs
      ensures View() == OnReconnectFailed(cfg, old(View()), k, now)
      ensures var gone := if claim != "" then claim else if k in old(running) then old(running)[k].claim else "";
              table.recs == if gone != "" then old(table.recs) - {table.pub(gone)} else old(table.recs)
    {
      var ri := Drop(k);
      var held := claim;
      if held == "" && ri.Some? {
        held := ri.value.claim;
      }
      Forget(table, held);
      if !(ri.Some? && (ri.value.vacated || ri.value.detached)) {
        FailJob(k, false, now);
      }
      Reap(ri);
    }

    method HandleTeardown(k: JobId, done: Option<nat>)
      modifies this`running, this`closed
      ensures View() == OnTeardown(old(View()), k, done)
    {
      if k !in running {
        if done.Some? {
          closed := closed + [done.value];
        }
        return;
      }
      var ri := running[k].(vacated := true);
      if done.Some? {
        ri := ri.(waiters := ri.waiters + [done.value]);
      }
      running := running[k := ri.(cancelled := true)];
    }

    method RequeueToIdle(k: JobId, now: int)
      modifies this`jobs
      ensures jobs == RequeueAll(old(jobs), {k}, now)
    {
      if StatusOf(jobs, k) == RUNNING {
        jobs := jobs[k := Requeued(jobs[k], now)];
      }
    }

    method HandleDrain(done: nat, now: int)
      modifies this
      ensures View() == OnDrain(cfg, old(View()), done, now)
    {
      draining := true;
      if |running| == 0 {
        closed := closed + [done];
        return;
      }
      drainDone := Some(done);
      if cfg.reconnectDisabled {
        VacateRuns(now);
      } else {
        DetachRuns();
      }
    }

    lemma VacateMore(running: map<JobId, RunInfo>, jobs: Queue, ks: set<JobId>, k: JobId, now: int)
      ensures VacateAll(VacateAll(running, ks), {k}) == VacateAll(running, ks + {k})
      ensures RequeueAll(RequeueAll(jobs, ks, now), {k}, now) == RequeueAll(jobs, ks + {k}, now)
    {
    }

    lemma VacateNone(running: map<JobId, RunInfo>, jobs: Queue, now: int)
      ensures VacateAll(running, {}) == running && RequeueAll(jobs, {}, now) == jobs
    {
    }

    /** Vacates one run and requeues its job. */
    method VacateRun(k: JobId, now: int)
      requires k in running
      modifies this`running, this`jobs
      ensures running == VacateAll(old(running), {k}) && jobs == RequeueAll(old(jobs), {k}, now)
    {
      running := running[k := running[k].(vacated := true)];
      RequeueToIdle(k, now);
      running := running[k := running[k].(cancelled := true)];
    }

    /** Ranges over the registry in any order. */
    method VacateRuns(now: int)
      modifies this`running, this`jobs
      ensures var ks := set k | k in old(running) && !old(running)[k].vacated;
              running == VacateAll(old(running), ks) && jobs == RequeueAll(old(jobs), ks, now)
    {
      ghost var done: set<JobId> := {};
      VacateNone(running, jobs, now);
      var todo := running.Keys;
      while todo != {}
        invariant todo !! done && todo <= old(running).Keys && done <= old(running).Keys
        invariant running == VacateAll(old(running), done) && jobs == RequeueAll(old(jobs), done, now)
        invariant forall k | k in old(running) && k !in todo :: k in done <==> !old(running)[k].vacated
        decreases todo
      {
        var k :| k in todo;
        assert running[k] == old(running)[k];
        if !running[k].vacated {
          VacateMore(old(running), old(jobs), done, k, now);
          VacateRun(k, now);
          done := done + {k};
        }
        todo := todo - {k};
      }
      assert done == set k | k in old(running) && !old(running)[k].vacated;
    }

    method DetachRuns()
      modifies this`running
      ensures var ks := set k | k in old(running) && !old(running)[k].vacated && !old(running)[k].detached;
              running == DetachAll(old(running), ks)
    {
      ghost var ks := set k | k in running && !running[k].vacated && !running[k].detached;
      var todo := running.Keys;
      while todo != {}
        invariant todo <= running.Keys == old(running).Keys
        invariant running == DetachAll(old(running), ks - todo)
        decreases |todo|
      {
        var k :| k in todo;
        if !running[k].vacated && !running[k].detached {
          running := running[k := running[k].(detached := true, cancelled := true)];
        }
        todo := todo - {k};
      }
      assert ks - todo == ks;
    }

    method HandleRecover(scan: seq<JobId>, done: Option<nat>, now: int)
      requires forall i, j | 0 <= i < j < |scan| :: scan[i] != scan[j]
      modifies this
      ensures View() == OnRecover(old(View()), scan, done, now)
    {
      if !draining {
        var toReconnect := ScanOrphans(scan, now);
        ReattachRuns(toReconnect);
      }
      if done.Some? {
        closed := closed + [done.value];
      }
    }

    /** The stale orphan k, if it is one. */
    ghost function StaleOne(c: Core, k: JobId, now: int): set<JobId> {
      if Orphaned(c, k) && !Recoverable(c, k, now) then {k} else {}
    }

    lemma ScanNext(c: Core, scan: seq<JobId>, i: nat, now: int)
      requires i < |scan|
      ensures Stale(c, scan[..i + 1], now) == Stale(c, scan[..i], now) + StaleOne(c, scan[i], now)
      ensures Recoveries(c, scan[..i + 1], now) == Recoveries(c, scan[..i], now) + Recoveries(c, [scan[i]], now)
    {
      assert scan[..i + 1][..i] == scan[..i] && scan[..i + 1][i] == scan[i];
      assert [scan[i]][..0] == [];
    }

    lemma RequeueMore(jobs: Queue, ks: set<JobId>, k: JobId, now: int)
      requires k !in ks
      ensures StatusOf(RequeueAll(jobs, ks, now), k) == StatusOf(jobs, k)
      ensures k in jobs ==> RequeueAll(jobs, ks, now)[k] == jobs[k]
      ensures RequeueAll(RequeueAll(jobs, ks, now), {k}, now) == RequeueAll(jobs, ks + {k}, now)
    {
    }

    /** One job of the scan; `c` is the core the scan began with and `done` what it requeued. */
    method ScanOne(k: JobId, now: int, ghost c: Core, ghost done: set<JobId>) returns (r: seq<Recovered>)
      requires jobs == RequeueAll(c.jobs, done, now) && running == c.running && k !in done
      modifies this`jobs
      ensures jobs == RequeueAll(c.jobs, done + StaleOne(c, k, now), now)
      ensures r == Recoveries(c, [k], now)
    {
      r := [];
      RequeueMore(c.jobs, done, k, now);
      assert [k][..0] == [];
      if StatusOf(jobs, k) != RUNNING || k in running {
        return;
      }
      var job := jobs[k];
      if job.claim == "" {
        RequeueToIdle(k, now);
        return;
      }
      if !LeaseAlive(job, now) {
        RequeueToIdle(k, now);
        return;
      }
      r := [Recovered(k, job.claim, job.host)];
    }

    lemma ScanNone(c: Core, now: int)
      ensures RequeueAll(c.jobs, Stale(c, [], now), now) == c.jobs
    {
    }

    /** Requeues the orphaned jobs that cannot be recovered and returns the others. */
    method ScanOrphans(scan: seq<JobId>, now: int) returns (toReconnect: seq<Recovered>)
      requires forall i, j | 0 <= i < j < |scan| :: scan[i] != scan[j]
      modifies this`jobs
      ensures jobs == RequeueAll(old(jobs), Stale(old(View()), scan, now), now)
      ensures toReconnect == Recoveries(old(View()), scan, now)
    {
      toReconnect := [];
      ghost var c := View();
      ScanNone(c, now);
      for i := 0 to |scan|
        invariant jobs == RequeueAll(c.jobs, Stale(c, scan[..i], now), now)
        invariant toReconnect == Recoveries(c, scan[..i], now)
      {
        ScanNext(c, scan, i, now);
        var r := ScanOne(scan[i], now, c, Stale(c, scan[..i], now));
        toReconnect := toReconnect + r;
      }
      assert scan[..|scan|] == scan;
    }

    method ReattachRuns(rs: seq<Recovered>)
      modifies this`running, this`gauge, this`launched
      ensures View() == Reattach(old(View()), rs)
    {
      var i := 0;
      while i < |rs|
        invariant 0 <= i <= |rs|
        invariant View() == Reattach(old(View()), rs[..i])
      {
        assert rs[..i + 1][..i] == rs[..i];
        var r := rs[i];
        running := running[r.key := RunInfo(|launched|, r.claim, r.slot, false, false, true, false, [])];
        gauge := gauge + 1;
        Launch(Reconnect(r.key, r.claim));
        i := i + 1;
      }
      assert rs[..i] == rs;
    }

    method HandlePolicyAction(k: JobId, req: Request)
      modifies this`policyPending, this`launched
      ensures View() == OnPolicy(old(View()), k, req)
    {
      if k in policyPending {
        return;
      }
      if !PolicyApplicable(req.kind, StatusOf(jobs, k)) {
        return;
      }
      policyPending := policyPending + {k};
      Launch(ApplyAction(k, req));
    }

    method HandlePolicyDone(k: JobId)
      modifies this`policyPending
      ensures View() == OnPolicyDone(old(View()), k)
    {
      policyPending := policyPending - {k};
    }

    /** What renewing a single job's persisted lease comes to. */
    lemma RenewOne(c: Core, k: JobId, now: int)
      ensures RenewAll(c, {k}, now) == if LiveRun(c.running, k) && StatusOf(c.jobs, k) == RUNNING
                                       then c.jobs[k := c.jobs[k].(renewal := now)] else c.jobs
    {
    }

    /** Other goroutines use the table, then the lease of run k is renewed there and in its
        job's record, if the run is live. */
    method RenewRun(table: Table, k: JobId, others: seq<Op>, span: int, at: int, now: int)
      requires k in running
      modifies this`jobs, table`recs
      ensures table.recs == Effects(table.alivesMissed, table.pub, old(table.recs), Visit(running, k, others, at, span))
      ensures jobs == RenewAll(old(View()), {k}, now)
    {
      RenewOne(View(), k, now);
      table.Interfere(others);
      if running[k].vacated || running[k].detached {
        assert Visit(running, k, others, at, span) == others;
        return;
      }
      assert Visit(running, k, others, at, span)[..|others|] == others;
      var _ := table.RenewLeaseFor(running[k].claim, span, at);
      if StatusOf(jobs, k) == RUNNING {
        jobs := jobs[k := jobs[k].(renewal := now)];
      }
    }

    lemma RenewMore(c: Core, ks: set<JobId>, k: JobId, now: int)
      ensures RenewAll(c.(jobs := RenewAll(c, ks, now)), {k}, now) == RenewAll(c, ks + {k}, now)
    {
    }

    lemma RenewNone(c: Core, now: int)
      ensures RenewAll(c, {}, now) == c.jobs
    {
    }

    /** Visits one more run; `was` and `before` are the table and the core that the sweep found. */
    method RenewNext(table: Table, k: JobId, order: seq<JobId>, span: int, others: nat -> seq<Op>, clock: nat -> int,
                     now: int,
                     ghost was: Recs, ghost before: Core, ghost seen: set<JobId>)
      requires k in running && View() == before.(jobs := RenewAll(before, seen, now))
      requires table.recs == Effects(table.alivesMissed, table.pub, was, Renewals(running, order, others, clock, span))
      modifies this`jobs, table`recs
      ensures table.recs == Effects(table.alivesMissed, table.pub, was,
                                    Renewals(running, order + [k], others, clock, span))
      ensures jobs == RenewAll(before, seen + {k}, now)
    {
      var i := |order|;
      RenewMore(before, seen, k, now);
      RenewRun(table, k, others(i), span, clock(i), now);
      EffectsAppend(table.alivesMissed, table.pub, was, Renewals(running, order, others, clock, span),
                    Visit(running, k, others(i), clock(i), span));
      assert (order + [k])[..i] == order;
    }

    /** Ranges over the registry in any order, which it returns. */
    method RenewRuns(table: Table, span: int, others: nat -> seq<Op>, clock: nat -> int, now: int)
        returns (order: seq<JobId>)
      modifies this`jobs, table`recs
      ensures forall k :: k in order <==> k in running
      ensures table.recs == Effects(table.alivesMissed, table.pub, old(table.recs),
                                    Renewals(running, order, others, clock, span))
      ensures jobs == RenewAll(old(View()), running.Keys, now)
    {
      order := [];
      var todo := running.Keys;
      ghost var seen: set<JobId> := {};
      RenewNone(View(), now);
      ghost var c0 := View();
      while todo != {}
        invariant todo + seen == running.Keys && forall k :: k in order <==> k in seen
        invariant table.recs == Effects(table.alivesMissed, table.pub, old(table.recs),
                                        Renewals(running, order, others, clock, span))
        invariant jobs == RenewAll(c0, seen, now)
        decreases todo
      {
        var k :| k in todo;
        assert View() == c0.(jobs := RenewAll(c0, seen, now));
        RenewNext(table, k, order, span, others, clock, now, old(table.recs), c0, seen);
        order := order + [k];
        seen, todo := seen + {k}, todo - {k};
      }
    }

    /** Vacates the first run found that holds the claim with public id p. */
    method VacateHolder(pub: string -> string, p: string, now: int) returns (victim: Option<JobId>)
      modifies this`running, this`jobs
      ensures victim.None? ==> running == old(running) && jobs == old(jobs)
                               && forall k | k in running && pub(running[k].claim) == p :: running[k].vacated
      ensures victim.Some? ==> victim.value in old(running) && !old(running)[victim.value].vacated
                               && pub(old(running)[victim.value].claim) == p
                               && running == VacateAll(old(running), {victim.value})
                               && jobs == RequeueAll(old(jobs), {victim.value}, now)
    {
      victim := None;
      var todo := running.Keys;
      while todo != {}
        invariant todo <= running.Keys && running == old(running) && jobs == old(jobs) && victim.None?
        invariant forall k | k in running && k !in todo && pub(running[k].claim) == p :: running[k].vacated
        decreases |todo|
      {
        var k :| k in todo;
        todo := todo - {k};
        if !running[k].vacated && pub(running[k].claim) == p {
          VacateRun(k, now);
          return Some(k);
        }
      }
    }

    lemma PickMore(running: map<JobId, RunInfo>, pub: string -> string, done: set<string>, p: string,
                   picked: map<string, JobId>, k: JobId)
      requires Picks(running, pub, done, picked) && p !in done
      requires k in running && !running[k].vacated && pub(running[k].claim) == p
      ensures Picks(running, pub, done + {p}, picked[p := k]) && picked[p := k].Values == picked.Values + {k}
    {
      assert forall q | q in picked :: picked[p := k][q] == picked[q];
      assert picked[p := k][p] == k;
    }

    /** Deals with one more expired record; `before` and `was` are the registry and the queue
        that the sweep found. */
    method VacateNext(pub: string -> string, p: string, picked: map<string, JobId>, now: int,
                      ghost before: map<JobId, RunInfo>, ghost was: Queue, ghost done: set<string>)
        returns (more: map<string, JobId>)
      requires Picks(before, pub, done, picked) && p !in done
      requires running == VacateAll(before, picked.Values) && jobs == RequeueAll(was, picked.Values, now)
      modifies this`running, this`jobs
      ensures Picks(before, pub, done + {p}, more)
      ensures running == VacateAll(before, more.Values) && jobs == RequeueAll(was, more.Values, now)
    {
      VacateHoldersStep(before, pub, done, p, picked);
      var victim := VacateHolder(pub, p, now);
      if victim.Some? {
        VacateMore(before, was, picked.Values, victim.value, now);
        PickMore(before, pub, done, p, picked, victim.value);
        more := picked[p := victim.value];
      } else {
        more := picked;
      }
    }

    method VacateHolders(pub: string -> string, expired: seq<string>, now: int) returns (picked: map<string, JobId>)
      requires forall i, j | 0 <= i < j < |expired| :: expired[i] != expired[j]
      modifies this`running, this`jobs
      ensures Picks(old(running), pub, (set p | p in expired), picked)
      ensures running == VacateAll(old(running), picked.Values) && jobs == RequeueAll(old(jobs), picked.Values, now)
    {
      picked := map[];
      ghost var done: set<string> := {};
      for i := 0 to |expired|
        invariant forall p :: p in done <==> p in expired[..i]
        invariant Picks(old(running), pub, done, picked)
        invariant running == VacateAll(old(running), picked.Values) && jobs == RequeueAll(old(jobs), picked.Values, now)
      {
        picked := VacateNext(pub, expired[i], picked, now, old(running), old(jobs), done);
        done := done + {expired[i]};
      }
      assert done == set p | p in expired;
    }

    /** Among the runs with an expired claim not dealt with yet, none has been vacated by the sweep. */
    lemma VacateHoldersStep(running: map<JobId, RunInfo>, pub: string -> string, done: set<string>, p: string,
                            picked: map<string, JobId>)
      requires Picks(running, pub, done, picked) && p !in done
      ensures forall k | k in running && pub(running[k].claim) == p ::
              VacateAll(running, picked.Values)[k] == running[k]
    {
    }

    lemma PickedAreVictims(running: map<JobId, RunInfo>, pub: string -> string, expired: set<string>,
                           picked: map<string, JobId>)
      requires Picks(running, pub, expired, picked)
      ensures (set k | k in running && k in picked.Values && !running[k].vacated) == picked.Values
    {
    }

    /** A pass of the lease sweep; `others` is what other goroutines do to the match table meanwhile. */
    method SweepExpired(table: Table, sweepInterval: int, others: nat -> seq<Op>, clock: nat -> int, now: int)
        returns (order: seq<JobId>, picked: map<string, JobId>)
      modifies this`running, this`jobs, table`recs
      ensures forall k :: k in order <==> k in old(running)
      ensures var recs := Effects(table.alivesMissed, table.pub, old(table.recs),
                                  Pass(old(running), order, others, clock, 3 * sweepInterval));
              && table.recs == recs - Expired(recs, clock(|order|))
              && Picks(old(running), table.pub, Expired(recs, clock(|order|)), picked)
      ensures View() == OnSweep(old(View()), picked.Values, now, now)
    {
      order := RenewRuns(table, 3 * sweepInterval, others, clock, now);
      EffectsAppend(table.alivesMissed, table.pub, old(table.recs),
                    Renewals(running, order, others, clock, 3 * sweepInterval), others(|order|));
      table.Interfere(others(|order|));
      var expired := table.ExpireSweep(clock(|order|));
      picked := VacateHolders(table.pub, expired, now);
      PickedAreVictims(old(running), table.pub, (set p | p in expired), picked);
    }
  }
}
