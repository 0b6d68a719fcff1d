/**
 The channels that teardown, recovery and drain commands wait on: each is in exactly one
 place until it is closed, so it is closed at most once.
 */
module SchedulerChannels {
  import opened Common
  import opened SchedulerCore
  import opened SchedulerSystem
  import opened SchedulerRegistry

  predicate Distinct(xs: seq<nat>) { forall i, j | 0 <= i < j < |xs| :: xs[i] != xs[j] }

  predicate SingleWaits(c: Core) { forall k | k in c.running :: Distinct(c.running[k].waiters) }

  /** The runs channel ch waits on. */
  function Waiting(running: map<JobId, RunInfo>, ch: nat): set<JobId> {
    set k | k in running && ch in running[k].waiters
  }

  /** How often the core holds channel ch: with a run, as the drain's, or closed. */
  function Held(c: Core, ch: nat): nat {
    |Waiting(c.running, ch)| + One(c.drainDone == Some(ch)) + multiset(c.closed)[ch]
  }

  lemma DistinctCount(xs: seq<nat>, ch: nat)
    requires Distinct(xs)
    ensures multiset(xs)[ch] == One(ch in xs)
  {
    if xs != [] {
      DistinctCount(xs[1..], ch);
      assert xs == [xs[0]] + xs[1..];
    }
  }

  /** The entries of d are entries of c with the same waiters, or wait for nothing. */
  predicate SameWaits(c: Core, d: Core) {
    && (forall k | k in c.running :: k in d.running && d.running[k].waiters == c.running[k].waiters)
    && (forall k | k in d.running && k !in c.running :: d.running[k].waiters == [])
  }

  /** From c to d the core has taken charge of the channel in `done`, and of no other. */
  ghost predicate Conserves(c: Core, d: Core, done: Option<nat>) {
    SingleWaits(d) && forall ch: nat :: Held(d, ch) == Held(c, ch) + One(done == Some(ch))
  }

  lemma SameWaitsConserve(c: Core, d: Core)
    requires SingleWaits(c) && SameWaits(c, d) && d.drainDone == c.drainDone && d.closed == c.closed
    ensures Conserves(c, d, None)
  {
    forall ch: nat
      ensures Held(d, ch) == Held(c, ch)
    {
      assert Waiting(d.running, ch) == Waiting(c.running, ch);
    }
  }

  lemma ClosedConserves(c: Core, d: Core, done: Option<nat>)
    requires SingleWaits(c) && SameWaits(c, d) && d.drainDone == c.drainDone
    requires d.closed == c.closed + if done.Some? then [done.value] else []
    ensures Conserves(c, d, done)
  {
    SameWaitsConserve(c, d.(closed := c.closed));
    forall ch: nat
      ensures Held(d, ch) == Held(c, ch) + One(done == Some(ch))
    {
      assert Held(d.(closed := c.closed), ch) == Held(c, ch);
      assert Waiting(d.(closed := c.closed).running, ch) == Waiting(d.running, ch);
    }
  }

  /** Reaping a run closes what waited on it, and the drain's channel if it was the last. */
  lemma ReapConserves(c: Core, d: Core, k: JobId)
    requires SingleWaits(c) && d.running == c.running - {k}
    requires d.drainDone == c.drainDone && d.closed == c.closed
    ensures Conserves(c, Reaped(d, Registered(c, k)), None)
  {
    var e := Reaped(d, Registered(c, k));
    forall ch: nat
      ensures Held(e, ch) == Held(c, ch)
    {
      assert Waiting(e.running, ch) == Waiting(c.running, ch) - {k};
      if k in c.running {
        DistinctCount(c.running[k].waiters, ch);
      }
    }
  }

  lemma TeardownConserves(c: Core, k: JobId, done: Option<nat>)
    requires SingleWaits(c) && (done.Some? ==> Held(c, done.value) == 0)
    ensures Conserves(c, OnTeardown(c, k, done), done)
  {
    var d := OnTeardown(c, k, done);
    if k !in c.running || done.None? {
      ClosedConserves(c, d, done);
    } else {
      var ws := c.running[k].waiters;
      assert Waiting(c.running, done.value) == {};
      forall ch: nat
        ensures Held(d, ch) == Held(c, ch) + One(done == Some(ch))
      {
        assert Waiting(d.running, ch) == Waiting(c.running, ch) + if done == Some(ch) then {k} else {};
      }
    }
  }

  lemma DrainConserves(cfg: Config, c: Core, done: nat, now: int)
    requires SingleWaits(c) && c.drainDone.None?
    ensures Conserves(c, OnDrain(cfg, c, done, now), Some(done))
  {
    var d := OnDrain(cfg, c, done, now);
    if c.running == map[] {
      ClosedConserves(c, d, Some(done));
    } else {
      forall ch: nat
        ensures Held(d, ch) == Held(c, ch) + One(done == ch)
      {
        assert Waiting(d.running, ch) == Waiting(c.running, ch);
      }
    }
  }

  lemma {:induction false} ReattachWaits(c: Core, rs: seq<Recovered>)
    requires forall i | 0 <= i < |rs| :: rs[i].key !in c.running
    ensures SameWaits(c, Reattach(c, rs))
    ensures Reattach(c, rs).drainDone == c.drainDone && Reattach(c, rs).closed == c.closed
  {
    if rs != [] {
      ReattachWaits(c, rs[..|rs| - 1]);
    }
  }

  lemma RecoverConserves(c: Core, scan: seq<JobId>, done: Option<nat>, now: int)
    requires SingleWaits(c) && NoDups(scan)
    ensures Conserves(c, OnRecover(c, scan, done, now), done)
  {
    if !c.draining {
      RecoveriesKeys(c, scan, now);
      ReattachWaits(c.(jobs := RequeueAll(c.jobs, Stale(c, scan, now), now)), Recoveries(c, scan, now));
    }
    ClosedConserves(c, OnRecover(c, scan, done, now), done);
  }

  lemma ExitedConserves(cfg: Config, c: Core, k: JobId, report: Report, verdict: Verdict, now: int)
    requires SingleWaits(c)
    ensures Conserves(c, OnExited(cfg, c, k, report, verdict, now), None)
  {
    var c1 := Unregister(c, k);
    var c2 := if Silenced(c, k) || report.detached then c1
              else if !report.hasResult then JobFailed(cfg, c1, k, true, now)
              else Concluded(c1, k, verdict, now);
    ReapConserves(c, c2, k);
  }

  lemma FailedReaps(cfg: Config, c: Core, k: JobId, detachedErr: bool, panicked: bool, claim: string,
                    released: bool, now: int) returns (d: Core)
    ensures OnFailed(cfg, c, k, detachedErr, panicked, claim, released, now) == Reaped(d, Registered(c, k))
    ensures d.running == c.running - {k} && d.drainDone == c.drainDone && d.closed == c.closed
  {
    var ri := Registered(c, k);
    d := Unregister(c, k);
    if !(ri.Some? && ri.value.detached) && !detachedErr {
      var held := if claim == "" && ri.Some? then ri.value.claim else claim;
      if held != "" && !released {
        d := Launching(d, ReleaseClaim(held));
      }
      if !(ri.Some? && ri.value.vacated) {
        d := JobFailed(cfg, d, k, panicked, now);
      }
    }
  }

  lemma FailedConserves(cfg: Config, c: Core, k: JobId, detachedErr: bool, panicked: bool, claim: string,
                        released: bool, now: int)
    requires SingleWaits(c)
    ensures Conserves(c, OnFailed(cfg, c, k, detachedErr, panicked, claim, released, now), None)
  {
    var d := FailedReaps(cfg, c, k, detachedErr, panicked, claim, released, now);
    ReapConserves(c, d, k);
  }

  lemma ReconnectFailedConserves(cfg: Config, c: Core, k: JobId, now: int)
    requires SingleWaits(c)
    ensures Conserves(c, OnReconnectFailed(cfg, c, k, now), None)
  {
    var c1 := Unregister(c, k);
    ReapConserves(c, if Silenced(c, k) then c1 else JobFailed(cfg, c1, k, false, now), k);
  }

  lemma StartedConserves(cfg: Config, c: Core, k: JobId, slot: string, claim: string, now: int)
    requires SingleWaits(c)
    ensures Conserves(c, OnStarted(cfg, c, k, slot, claim, now), None)
  {
    SameWaitsConserve(c, OnStarted(cfg, c, k, slot, claim, now));
  }

  /** Every handler conserves the channels. */
  lemma HandleConserves(cfg: Config, c: Core, e: Event, verdict: Verdict, scan: seq<JobId>, now: int)
    requires SingleWaits(c) && NoDups(scan) && (e.EvDrain? ==> c.drainDone.None?)
    requires DoneOf(e).Some? ==> Held(c, DoneOf(e).value) == 0
    ensures Conserves(c, Handle(cfg, c, e, verdict, scan, now), DoneOf(e))
  {
    match e
    case EvExited(rid, key, report) =>
      ExitedIs(cfg, c, rid, key, report, verdict, scan, now);
      ExitedConserves(cfg, c, key, report, verdict, now);
    case EvFailed(rid, key, detachedErr, panicked, claim, released) =>
      FailedIs(cfg, c, rid, key, detachedErr, panicked, claim, released, verdict, scan, now);
      FailedConserves(cfg, c, key, detachedErr, panicked, claim, released, now);
    case EvReconnectFailed(rid, key) =>
      ReconnectFailedIs(cfg, c, rid, key, verdict, scan, now);
      ReconnectFailedConserves(cfg, c, key, now);
    case EvTeardown(key, done) =>
      TeardownIs(cfg, c, key, done, verdict, scan, now);
      TeardownConserves(c, key, done);
    case EvDrain(done) =>
      DrainIs(cfg, c, done, verdict, scan, now);
      DrainConserves(cfg, c, done, now);
    case EvRecover(done) =>
      RecoverIs(cfg, c, done, verdict, scan, now);
      RecoverConserves(c, scan, done, now);
    case EvMatch(key, claim, slot) =>
      MatchIs(cfg, c, key, claim, slot, verdict, scan, now);
      SameWaitsConserve(c, OnMatch(c, key, claim, slot));
    case EvStarted(rid, key, slot, claim) =>
      StartedIs(cfg, c, rid, key, slot, claim, verdict, scan, now);
      StartedConserves(cfg, c, key, slot, claim, now);
    case EvPolicy(key, req) =>
      PolicyIs(cfg, c, key, req, verdict, scan, now);
      SameWaitsConserve(c, OnPolicy(c, key, req));
    case EvPolicyDone(rid, key) =>
      PolicyDoneIs(cfg, c, rid, key, verdict, scan, now);
      SameWaitsConserve(c, OnPolicyDone(c, key));
  }

  // ----- the drain -----

  /** With the drain under way in c: the registry only shrinks, and the drain's channel is
      closed by the reaping that empties it. */
  predicate DrainsOn(c: Core, d: Core) {
    && d.draining && d.running.Keys <= c.running.Keys && c.closed <= d.closed
    && d.drainDone == (if d.running == map[] then None else c.drainDone)
    && (d.running == map[] && c.drainDone.Some? ==> c.drainDone.value in d.closed)
  }

  /** Outside a drain nothing starts one but evDrain. */
  predicate StaysOpen(c: Core, d: Core) { !d.draining && d.drainDone.None? && c.closed <= d.closed }

  predicate DrainState(c: Core) { c.drainDone.Some? ==> c.draining && c.running != map[] }

  lemma ReapDrains(c: Core, d: Core, k: JobId)
    requires DrainState(c) && d.running == c.running - {k}
    requires d.draining == c.draining && d.drainDone == c.drainDone && d.closed == c.closed
    ensures var e := Reaped(d, Registered(c, k)); if c.draining then DrainsOn(c, e) else StaysOpen(c, e)
  {
  }

  lemma ExitedDrains(cfg: Config, c: Core, k: JobId, report: Report, verdict: Verdict, now: int)
    requires DrainState(c)
    ensures var d := OnExited(cfg, c, k, report, verdict, now); if c.draining then DrainsOn(c, d) else StaysOpen(c, d)
  {
    var c1 := Unregister(c, k);
    var c2 := if Silenced(c, k) || report.detached then c1
              else if !report.hasResult then JobFailed(cfg, c1, k, true, now)
              else Concluded(c1, k, verdict, now);
    ReapDrains(c, c2, k);
  }

  lemma FailedDrains(cfg: Config, c: Core, k: JobId, detachedErr: bool, panicked: bool, claim: string, released: bool,
                     now: int)
    requires DrainState(c)
    ensures var d := OnFailed(cfg, c, k, detachedErr, panicked, claim, released, now);
            if c.draining then DrainsOn(c, d) else StaysOpen(c, d)
  {
    var ri := Registered(c, k);
    var c1 := Unregister(c, k);
    if (ri.Some? && ri.value.detached) || detachedErr {
      ReapDrains(c, c1, k);
    } else {
      var held := if claim == "" && ri.Some? then ri.value.claim else claim;
      var c2 := if held != "" && !released then Launching(c1, ReleaseClaim(held)) else c1;
      ReapDrains(c, if ri.Some? && ri.value.vacated then c2 else JobFailed(cfg, c2, k, panicked, now), k);
    }
  }

  lemma ReconnectFailedDrains(cfg: Config, c: Core, k: JobId, now: int)
    requires DrainState(c)
    ensures var d := OnReconnectFailed(cfg, c, k, now); if c.draining then DrainsOn(c, d) else StaysOpen(c, d)
  {
    var c1 := Unregister(c, k);
    ReapDrains(c, if Silenced(c, k) then c1 else JobFailed(cfg, c1, k, false, now), k);
  }

  lemma RecoverDrains(c: Core, scan: seq<JobId>, done: Option<nat>, now: int)
    requires DrainState(c) && NoDups(scan)
    ensures var d := OnRecover(c, scan, done, now); if c.draining then DrainsOn(c, d) else StaysOpen(c, d)
  {
    if !c.draining {
      RecoveriesKeys(c, scan, now);
      ReattachWaits(c.(jobs := RequeueAll(c.jobs, Stale(c, scan, now), now)), Recoveries(c, scan, now));
      ReattachOpen(c.(jobs := RequeueAll(c.jobs, Stale(c, scan, now), now)), Recoveries(c, scan, now));
    }
  }

  lemma {:induction false} ReattachOpen(c: Core, rs: seq<Recovered>)
    ensures Reattach(c, rs).draining == c.draining
  {
    if rs != [] {
      ReattachOpen(c, rs[..|rs| - 1]);
    }
  }

  lemma HandleDrains(cfg: Config, c: Core, e: Event, verdict: Verdict, scan: seq<JobId>, now: int)
    requires DrainState(c) && NoDups(scan) && !e.EvDrain?
    ensures var d := Handle(cfg, c, e, verdict, scan, now); if c.draining then DrainsOn(c, d) else StaysOpen(c, d)
  {
    match e
    case EvExited(_, key, report) => ExitedDrains(cfg, c, key, report, verdict, now);
    case EvFailed(_, key, detachedErr, panicked, claim, released) =>
      FailedDrains(cfg, c, key, detachedErr, panicked, claim, released, now);
    case EvReconnectFailed(_, key) => ReconnectFailedDrains(cfg, c, key, now);
    case EvRecover(done) => RecoverDrains(c, scan, done, now);
    case _ =>
  }
}
