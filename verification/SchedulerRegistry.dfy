/** The running-job registry and the run goroutines stay one-to-one. */
module SchedulerRegistry {
  import opened Common
  import opened Actions
  import opened SchedulerCore
  import opened SchedulerSystem

  /** Run r is the run its job's registry entry stands for. */
  predicate Backs(c: Core, r: nat) {
    && r < |c.launched| && IsRun(c.launched[r])
    && c.launched[r].key in c.running && c.running[c.launched[r].key].rid == r
  }

  predicate Entry(c: Core, k: JobId)
    requires k in c.running
  {
    var ri := c.running[k];
    && ri.rid < |c.launched| && IsRun(c.launched[ri.rid]) && c.launched[ri.rid].key == k
    && (c.launched[ri.rid].Reconnect? <==> ri.reconnect)
  }

  predicate CoreReg(c: Core) {
    c.gauge == |c.running| && forall k | k in c.running :: Entry(c, k)
  }

  /** Nothing launched in c is gone in d. */
  predicate Prefix(c: Core, d: Core) {
    |c.launched| <= |d.launched| && forall i | 0 <= i < |c.launched| :: d.launched[i] == c.launched[i]
  }

  predicate NoNewRuns(c: Core, d: Core) {
    Prefix(c, d) && forall i | |c.launched| <= i < |d.launched| :: !IsRun(d.launched[i])
  }

  /** From c to d the runs of the jobs in `gone` left the registry, the newly launched runs
      entered it, and every other run stayed. */
  predicate Evolves(c: Core, d: Core, gone: set<JobId>) {
    && CoreReg(d) && Prefix(c, d)
    && (forall r | 0 <= r < |c.launched| :: Backs(d, r) <==> (Backs(c, r) && c.launched[r].key !in gone))
    && (forall r | |c.launched| <= r < |d.launched| && IsRun(d.launched[r]) :: Backs(d, r))
  }

  /** The registry keeps its entries; their other fields may change. */
  predicate SameEntries(c: Core, d: Core) {
    && d.gauge == c.gauge && d.running.Keys == c.running.Keys
    && (forall k | k in c.running ::
          d.running[k].rid == c.running[k].rid && d.running[k].reconnect == c.running[k].reconnect)
    && NoNewRuns(c, d)
  }

  lemma SameEntriesEvolve(c: Core, d: Core)
    requires CoreReg(c) && SameEntries(c, d)
    ensures Evolves(c, d, {})
  {
    assert |d.running| == |d.running.Keys| == |c.running.Keys| == |c.running|;
    forall k | k in d.running
      ensures Entry(d, k)
    {
      assert Entry(c, k);
    }
  }

  lemma RemovedEvolves(c: Core, d: Core, k: JobId)
    requires CoreReg(c) && NoNewRuns(c, d)
    requires d.running == c.running - {k} && d.gauge == c.gauge - One(k in c.running)
    ensures Evolves(c, d, {k})
  {
    RemovedKeepsReg(c, d, k);
  }

  lemma RemovedKeepsReg(c: Core, d: Core, k: JobId)
    requires CoreReg(c) && NoNewRuns(c, d)
    requires d.running == c.running - {k} && d.gauge == c.gauge - One(k in c.running)
    ensures CoreReg(d)
  {
    assert d.running.Keys == c.running.Keys - {k};
    forall j | j in d.running
      ensures Entry(d, j)
    {
      assert Entry(c, j);
    }
  }

  lemma RegisterKeepsReg(c: Core, k: JobId, claim: string, slot: string, reconnect: bool)
    requires CoreReg(c) && k !in c.running
    ensures CoreReg(Register(c, k, claim, slot, reconnect))
  {
    var d := Register(c, k, claim, slot, reconnect);
    assert d.running.Keys == c.running.Keys + {k};
    assert |d.running.Keys| == |c.running.Keys| + 1;
    forall j | j in d.running
      ensures Entry(d, j)
    {
      if j == k {
        assert d.launched[|c.launched|].key == k;
      } else {
        assert Entry(c, j) && d.running[j] == c.running[j];
      }
    }
  }

  lemma RegisterEvolves(c: Core, k: JobId, claim: string, slot: string, reconnect: bool)
    requires CoreReg(c) && k !in c.running
    ensures Evolves(c, Register(c, k, claim, slot, reconnect), {})
  {
    var d := Register(c, k, claim, slot, reconnect);
    RegisterKeepsReg(c, k, claim, slot, reconnect);
    forall r | 0 <= r < |c.launched|
      ensures Backs(d, r) <==> Backs(c, r)
    {
      assert d.launched[r] == c.launched[r];
      if IsRun(c.launched[r]) && c.launched[r].key != k && c.launched[r].key in c.running {
        assert d.running[c.launched[r].key] == c.running[c.launched[r].key];
      }
    }
    assert Backs(d, |c.launched|);
  }

  lemma EvolvesOn(c: Core, d: Core, e: Core)
    requires Evolves(c, d, {}) && Evolves(d, e, {})
    ensures Evolves(c, e, {})
  {
  }

  lemma ReapedEvolves(c: Core, d: Core, k: JobId, l: Launch)
    requires CoreReg(c) && !IsRun(l)
    requires d.launched == c.launched || d.launched == c.launched + [l]
    requires d.running == c.running - {k} && d.gauge == c.gauge - One(k in c.running)
    ensures Evolves(c, d, {k})
  {
    RemovedEvolves(c, d, k);
  }

  lemma ExitedEvolves(cfg: Config, c: Core, k: JobId, report: Report, verdict: Verdict, now: int)
    requires CoreReg(c)
    ensures Evolves(c, OnExited(cfg, c, k, report, verdict, now), {k})
  {
    ReapedEvolves(c, OnExited(cfg, c, k, report, verdict, now), k, SubmitRemove(k));
  }

  lemma FailedEvolves(cfg: Config, c: Core, k: JobId, detachedErr: bool, panicked: bool, claim: string,
                      released: bool, now: int)
    requires CoreReg(c)
    ensures Evolves(c, OnFailed(cfg, c, k, detachedErr, panicked, claim, released, now), {k})
  {
    var d := OnFailed(cfg, c, k, detachedErr, panicked, claim, released, now);
    var held := if claim == "" && k in c.running then c.running[k].claim else claim;
    ReapedEvolves(c, d, k, ReleaseClaim(held));
  }

  lemma ReconnectFailedEvolves(cfg: Config, c: Core, k: JobId, now: int)
    requires CoreReg(c)
    ensures Evolves(c, OnReconnectFailed(cfg, c, k, now), {k})
  {
    ReapedEvolves(c, OnReconnectFailed(cfg, c, k, now), k, SubmitRemove(k));
  }

  predicate Keys(rs: seq<Recovered>, ks: set<JobId>) {
    && (forall i | 0 <= i < |rs| :: rs[i].key in ks)
    && (forall i, j | 0 <= i < j < |rs| :: rs[i].key != rs[j].key)
  }

  lemma {:induction false} RecoveriesKeys(c: Core, scan: seq<JobId>, now: int)
    requires NoDups(scan)
    ensures Keys(Recoveries(c, scan, now), set k | k in scan && k !in c.running)
  {
    if scan != [] {
      RecoveriesKeys(c, scan[..|scan| - 1], now);
    }
  }

  lemma {:induction false} ReattachKeys(c: Core, rs: seq<Recovered>)
    ensures forall k | k in Reattach(c, rs).running :: k in c.running || exists i :: 0 <= i < |rs| && rs[i].key == k
  {
    if rs != [] {
      ReattachKeys(c, rs[..|rs| - 1]);
    }
  }

  lemma {:induction false} ReattachEvolves(c: Core, rs: seq<Recovered>, ks: set<JobId>)
    requires CoreReg(c) && Keys(rs, ks) && ks !! c.running.Keys
    ensures Evolves(c, Reattach(c, rs), {})
  {
    if rs == [] {
      SameEntriesEvolve(c, c);
    } else {
      var before := rs[..|rs| - 1];
      ReattachEvolves(c, before, ks);
      assert rs[|rs| - 1].key !in Reattach(c, before).running by {
        ReattachKeys(c, before);
      }
      RegisterOn(c, Reattach(c, before), rs[|rs| - 1]);
    }
  }

  lemma RegisterOn(c: Core, d: Core, r: Recovered)
    requires Evolves(c, d, {}) && r.key !in d.running
    ensures Evolves(c, Register(d, r.key, r.claim, r.slot, true), {})
  {
    RegisterEvolves(d, r.key, r.claim, r.slot, true);
    EvolvesOn(c, d, Register(d, r.key, r.claim, r.slot, true));
  }

  lemma RecoverEvolves(c: Core, scan: seq<JobId>, done: Option<nat>, now: int)
    requires CoreReg(c) && NoDups(scan)
    ensures Evolves(c, OnRecover(c, scan, done, now), {})
  {
    var d := OnRecover(c, scan, done, now);
    if c.draining {
      SameEntriesEvolve(c, d);
    } else {
      var c1 := c.(jobs := RequeueAll(c.jobs, Stale(c, scan, now), now));
      var rs := Recoveries(c, scan, now);
      RecoveriesKeys(c, scan, now);
      SameEntriesEvolve(c, c1);
      ReattachEvolves(c1, rs, set k | k in scan && k !in c.running);
      EvolvesOn(c, c1, Reattach(c1, rs));
      SameEntriesEvolve(Reattach(c1, rs), d);
      EvolvesOn(c, Reattach(c1, rs), d);
    }
  }

  lemma MatchEvolves(c: Core, k: JobId, claim: string, slot: string)
    requires CoreReg(c)
    ensures Evolves(c, OnMatch(c, k, claim, slot), {})
  {
    if Takes(c, k, claim) {
      RegisterEvolves(c, k, claim, slot, false);
    } else {
      SameEntriesEvolve(c, OnMatch(c, k, claim, slot));
    }
  }

  lemma StartedEvolves(cfg: Config, c: Core, k: JobId, slot: string, claim: string, now: int)
    requires CoreReg(c)
    ensures Evolves(c, OnStarted(cfg, c, k, slot, claim, now), {})
  {
    StartedKeepsEntries(cfg, c, k, slot, claim, now);
    SameEntriesEvolve(c, OnStarted(cfg, c, k, slot, claim, now));
  }

  lemma StartedKeepsEntries(cfg: Config, c: Core, k: JobId, slot: string, claim: string, now: int)
    ensures SameEntries(c, OnStarted(cfg, c, k, slot, claim, now))
  {
  }

  lemma TeardownEvolves(c: Core, k: JobId, done: Option<nat>)
    requires CoreReg(c)
    ensures Evolves(c, OnTeardown(c, k, done), {})
  {
    TeardownKeepsEntries(c, k, done);
    SameEntriesEvolve(c, OnTeardown(c, k, done));
  }

  lemma TeardownKeepsEntries(c: Core, k: JobId, done: Option<nat>)
    ensures SameEntries(c, OnTeardown(c, k, done))
  {
  }

  lemma DrainEvolves(cfg: Config, c: Core, done: nat, now: int)
    requires CoreReg(c)
    ensures Evolves(c, OnDrain(cfg, c, done, now), {})
  {
    SameEntriesEvolve(c, OnDrain(cfg, c, done, now));
  }

  lemma PolicyEvolves(c: Core, k: JobId, req: Request)
    requires CoreReg(c)
    ensures Evolves(c, OnPolicy(c, k, req), {})
  {
    SameEntriesEvolve(c, OnPolicy(c, k, req));
  }

  /** Every handler moves the registry and the launched runs together. */
  lemma HandleEvolves(cfg: Config, c: Core, e: Event, verdict: Verdict, scan: seq<JobId>, now: int)
    requires CoreReg(c) && NoDups(scan)
    ensures Evolves(c, Handle(cfg, c, e, verdict, scan, now), Gone(e))
  {
    match e
    case EvMatch(key, claim, slot) =>
      MatchHandled(cfg, c, key, claim, slot, verdict, scan, now);
    case EvStarted(rid, key, slot, claim) =>
      StartedHandled(cfg, c, rid, key, slot, claim, verdict, scan, now);
    case EvExited(rid, key, report) =>
      ExitedHandled(cfg, c, rid, key, report, verdict, scan, now);
    case EvFailed(rid, key, detachedErr, panicked, claim, released) =>
      FailedHandled(cfg, c, rid, key, detachedErr, panicked, claim, released, verdict, scan, now);
    case EvReconnectFailed(rid, key) =>
      ReconnectFailedHandled(cfg, c, rid, key, verdict, scan, now);
    case EvTeardown(key, done) =>
      TeardownHandled(cfg, c, key, done, verdict, scan, now);
    case EvDrain(done) =>
      DrainHandled(cfg, c, done, verdict, scan, now);
    case EvRecover(done) =>
      RecoverHandled(cfg, c, done, verdict, scan, now);
    case EvPolicy(key, req) =>
      PolicyHandled(cfg, c, key, req, verdict, scan, now);
    case EvPolicyDone(rid, key) =>
      PolicyDoneHandled(cfg, c, rid, key, verdict, scan, now);
  }

  lemma MatchHandled(cfg: Config, c: Core, k: JobId, claim: string, slot: string,
                     v: Verdict, scan: seq<JobId>, now: int)
    requires CoreReg(c)
    ensures Evolves(c, Handle(cfg, c, EvMatch(k, claim, slot), v, scan, now), {})
  {
    MatchIs(cfg, c, k, claim, slot, v, scan, now);
    MatchEvolves(c, k, claim, slot);
  }

  lemma StartedHandled(cfg: Config, c: Core, rid: nat, k: JobId, slot: string, claim: string,
                       v: Verdict, scan: seq<JobId>, now: int)
    requires CoreReg(c)
    ensures Evolves(c, Handle(cfg, c, EvStarted(rid, k, slot, claim), v, scan, now), {})
  {
    StartedIs(cfg, c, rid, k, slot, claim, v, scan, now);
    StartedEvolves(cfg, c, k, slot, claim, now);
  }

  lemma ExitedHandled(cfg: Config, c: Core, rid: nat, k: JobId, report: Report,
                      v: Verdict, scan: seq<JobId>, now: int)
    requires CoreReg(c)
    ensures Evolves(c, Handle(cfg, c, EvExited(rid, k, report), v, scan, now), {k})
  {
    ExitedIs(cfg, c, rid, k, report, v, scan, now);
    ExitedEvolves(cfg, c, k, report, v, now);
  }

  lemma FailedHandled(cfg: Config, c: Core, rid: nat, k: JobId, detachedErr: bool, panicked: bool, claim: string,
                      released: bool,
                      v: Verdict, scan: seq<JobId>, now: int)
    requires CoreReg(c)
    ensures Evolves(c, Handle(cfg, c, EvFailed(rid, k, detachedErr, panicked, claim, released), v, scan, now), {k})
  {
    FailedIs(cfg, c, rid, k, detachedErr, panicked, claim, released, v, scan, now);
    FailedEvolves(cfg, c, k, detachedErr, panicked, claim, released, now);
  }

  lemma ReconnectFailedHandled(cfg: Config, c: Core, rid: nat, k: JobId,
                               v: Verdict, scan: seq<JobId>, now: int)
    requires CoreReg(c)
    ensures Evolves(c, Handle(cfg, c, EvReconnectFailed(rid, k), v, scan, now), {k})
  {
    ReconnectFailedIs(cfg, c, rid, k, v, scan, now);
    ReconnectFailedEvolves(cfg, c, k, now);
  }

  lemma TeardownHandled(cfg: Config, c: Core, k: JobId, done: Option<nat>,
                        v: Verdict, scan: seq<JobId>, now: int)
    requires CoreReg(c)
    ensures Evolves(c, Handle(cfg, c, EvTeardown(k, done), v, scan, now), {})
  {
    TeardownIs(cfg, c, k, done, v, scan, now);
    TeardownEvolves(c, k, done);
  }

  lemma DrainHandled(cfg: Config, c: Core, done: nat,
                     v: Verdict, scan: seq<JobId>, now: int)
    requires CoreReg(c)
    ensures Evolves(c, Handle(cfg, c, EvDrain(done), v, scan, now), {})
  {
    DrainIs(cfg, c, done, v, scan, now);
    DrainEvolves(cfg, c, done, now);
  }

  lemma RecoverHandled(cfg: Config, c: Core, done: Option<nat>,
                       v: Verdict, scan: seq<JobId>, now: int)
    requires CoreReg(c) && NoDups(scan)
    ensures Evolves(c, Handle(cfg, c, EvRecover(done), v, scan, now), {})
  {
    RecoverIs(cfg, c, done, v, scan, now);
    RecoverEvolves(c, scan, done, now);
  }

  lemma PolicyHandled(cfg: Config, c: Core, k: JobId, req: Request,
                      v: Verdict, scan: seq<JobId>, now: int)
    requires CoreReg(c)
    ensures Evolves(c, Handle(cfg, c, EvPolicy(k, req), v, scan, now), {})
  {
    PolicyIs(cfg, c, k, req, v, scan, now);
    PolicyEvolves(c, k, req);
  }

  lemma PolicyDoneHandled(cfg: Config, c: Core, rid: nat, k: JobId,
                          v: Verdict, scan: seq<JobId>, now: int)
    requires CoreReg(c)
    ensures Evolves(c, Handle(cfg, c, EvPolicyDone(rid, k), v, scan, now), {})
  {
    PolicyDoneIs(cfg, c, rid, k, v, scan, now);
    SameEntriesEvolve(c, OnPolicyDone(c, k));
  }

  // ----- the whole system -----

  /** The events of run r in the channel: false for its start, true for its end. */
  function Tags(events: seq<Event>, r: nat): seq<bool> {
    if events == [] then []
    else (if OfRun(events[0], r) then [Terminal(events[0])] else []) + Tags(events[1..], r)
  }

  function Expected(runs: map<nat, Run>, r: nat): seq<bool> {
    if r !in runs then []
    else (if runs[r].start.Queued? then [false] else []) + (if runs[r].phase.Posted? then [true] else [])
  }

  lemma {:induction false} TagsAppend(events: seq<Event>, e: Event, r: nat)
    ensures Tags(events + [e], r) == Tags(events, r) + if OfRun(e, r) then [Terminal(e)] else []
  {
    if events == [] {
      assert events + [e] == [e];
    } else {
      assert (events + [e])[1..] == events[1..] + [e];
      TagsAppend(events[1..], e, r);
    }
  }

  /** Every run event names its run's job. */
  predicate KeysAgree(s: System) {
    forall i | 0 <= i < |s.events| && (Terminal(s.events[i]) || s.events[i].EvStarted?) ::
      s.events[i].rid in s.runs && s.events[i].rid < |s.core.launched|
      && IsRun(s.core.launched[s.events[i].rid]) && s.events[i].key == s.core.launched[s.events[i].rid].key
  }

  predicate RunsLaunched(s: System) {
    && (forall r | r in s.runs :: r < |s.core.launched| && IsRun(s.core.launched[r]))
    && (forall r | 0 <= r < |s.core.launched| && IsRun(s.core.launched[r]) :: r in s.runs)
  }

  /** A run is registered exactly until its terminal event is delivered. */
  predicate OneToOne(s: System) {
    forall r | r in s.runs :: !s.runs[r].phase.Done? <==> Backs(s.core, r)
  }

  /** A run's start is delivered before its end. */
  predicate StartsFirst(s: System) {
    forall r | r in s.runs :: s.runs[r].phase.Done? ==> !s.runs[r].start.Queued?
  }

  ghost predicate InStep(s: System) {
    forall r: nat :: Tags(s.events, r) == Expected(s.runs, r)
  }

  ghost predicate RegInv(s: System) {
    CoreReg(s.core) && RunsLaunched(s) && OneToOne(s) && StartsFirst(s) && KeysAgree(s) && InStep(s)
  }

  lemma HeadTag(s: System)
    requires InStep(s) && s.events != []
    ensures var e := s.events[0];
            && (e.EvStarted? ==> e.rid in s.runs && s.runs[e.rid].start.Queued?)
            && (Terminal(e) ==> e.rid in s.runs && s.runs[e.rid].phase.Posted? && !s.runs[e.rid].start.Queued?)
  {
    var e := s.events[0];
    if Terminal(e) || e.EvStarted? {
      assert Tags(s.events, e.rid)[0] == Terminal(e);
      assert Tags(s.events, e.rid) == Expected(s.runs, e.rid);
    }
  }

  function Gone(e: Event): set<JobId> { if Terminal(e) then {e.key} else {} }

  /** After a delivery an old run has what it noted, and a new one is just spawned. */
  lemma PassedRun(s: System, c: Core, r: nat)
    requires RunsLaunched(s) && s.events != [] && Prefix(s.core, c)
    ensures var t := Passed(s, c);
            && (r in s.runs ==> r < |s.core.launched| && r in t.runs && t.runs[r] == Noted(s.runs, s.events[0])[r])
            && (r !in s.runs && r in t.runs ==>
                  |s.core.launched| <= r < |c.launched| && IsRun(c.launched[r])
                  && t.runs[r].phase.Live? && !t.runs[r].start.Queued?)
  {
  }

  lemma PassedKeepsRuns(s: System, c: Core)
    requires RunsLaunched(s) && s.events != [] && Prefix(s.core, c)
    ensures RunsLaunched(Passed(s, c))
  {
    var t := Passed(s, c);
    forall r | r in t.runs
      ensures r < |c.launched| && IsRun(c.launched[r])
    {
      PassedRun(s, c, r);
    }
  }

  lemma PassedStartsFirst(s: System, c: Core)
    requires RunsLaunched(s) && StartsFirst(s) && InStep(s) && s.events != [] && Prefix(s.core, c)
    ensures StartsFirst(Passed(s, c))
  {
    var t := Passed(s, c);
    HeadTag(s);
    forall r | r in t.runs && t.runs[r].phase.Done?
      ensures !t.runs[r].start.Queued?
    {
      PassedRun(s, c, r);
    }
  }

  lemma PassedKeepsKeys(s: System, c: Core)
    requires RunsLaunched(s) && KeysAgree(s) && s.events != [] && Prefix(s.core, c)
    ensures KeysAgree(Passed(s, c))
  {
    var t := Passed(s, c);
    forall i | 0 <= i < |t.events| && (Terminal(t.events[i]) || t.events[i].EvStarted?)
      ensures t.events[i].rid in t.runs && t.events[i].rid < |c.launched|
              && IsRun(c.launched[t.events[i].rid]) && t.events[i].key == c.launched[t.events[i].rid].key
    {
      assert t.events[i] == s.events[i + 1];
      PassedRun(s, c, t.events[i].rid);
    }
  }

  lemma PassedTags(s: System, c: Core, r: nat)
    requires RunsLaunched(s) && InStep(s) && s.events != [] && Prefix(s.core, c)
    ensures Tags(Passed(s, c).events, r) == Expected(Passed(s, c).runs, r)
  {
    HeadTag(s);
    PassedRun(s, c, r);
    assert Tags(s.events, r) == Expected(s.runs, r);
    var e := s.events[0];
    if OfRun(e, r) {
      assert Expected(s.runs, r) == [Terminal(e)] + Expected(Noted(s.runs, e), r);
      assert Tags(s.events, r)[1..] == Tags(s.events[1..], r);
    }
  }

  lemma PassedKeepsInStep(s: System, c: Core)
    requires RunsLaunched(s) && InStep(s) && s.events != [] && Prefix(s.core, c)
    ensures InStep(Passed(s, c))
  {
    forall r: nat
      ensures Tags(Passed(s, c).events, r) == Expected(Passed(s, c).runs, r)
    {
      PassedTags(s, c, r);
    }
  }

  /** A terminal event at the head of the channel comes from the run its job is registered with. */
  predicate HeadBacks(s: System)
    requires s.events != []
  {
    var e := s.events[0];
    Terminal(e) ==> e.rid in s.runs && Backs(s.core, e.rid) && s.core.launched[e.rid].key == e.key
  }

  lemma HeadIsBacked(s: System)
    requires RegInv(s) && s.events != []
    ensures HeadBacks(s)
  {
    HeadTag(s);
  }

  /** The delivery ends the run the event comes from, and no other. */
  lemma NotedBacks(s: System, r: nat, backs: bool)
    requires s.events != [] && HeadBacks(s) && r in s.runs && r < |s.core.launched| && IsRun(s.core.launched[r])
    requires !s.runs[r].phase.Done? <==> Backs(s.core, r)
    requires backs <==> Backs(s.core, r) && s.core.launched[r].key !in Gone(s.events[0])
    ensures !Noted(s.runs, s.events[0])[r].phase.Done? <==> backs
  {
  }

  lemma PassedBacks(s: System, c: Core, r: nat)
    requires RunsLaunched(s) && OneToOne(s) && s.events != [] && HeadBacks(s)
    requires Evolves(s.core, c, Gone(s.events[0])) && r in Passed(s, c).runs
    ensures !Passed(s, c).runs[r].phase.Done? <==> Backs(c, r)
  {
    PassedRun(s, c, r);
    if r in s.runs {
      NotedBacks(s, r, Backs(c, r));
    }
  }

  lemma PassedKeepsOneToOne(s: System, c: Core)
    requires RunsLaunched(s) && OneToOne(s) && s.events != [] && HeadBacks(s)
    requires Evolves(s.core, c, Gone(s.events[0]))
    ensures OneToOne(Passed(s, c))
  {
    forall r | r in Passed(s, c).runs
      ensures !Passed(s, c).runs[r].phase.Done? <==> Backs(c, r)
    {
      PassedBacks(s, c, r);
    }
  }

  lemma DeliverKeepsReg(cfg: Config, s: System, verdict: Verdict, scan: seq<JobId>, now: int)
    requires RegInv(s) && s.events != [] && NoDups(scan)
    ensures RegInv(Passed(s, Handle(cfg, s.core, s.events[0], verdict, scan, now)))
  {
    var c := Handle(cfg, s.core, s.events[0], verdict, scan, now);
    HandleEvolves(cfg, s.core, s.events[0], verdict, scan, now);
    PassedKeepsRuns(s, c);
    PassedStartsFirst(s, c);
    PassedKeepsKeys(s, c);
    PassedKeepsInStep(s, c);
    HeadIsBacked(s);
    PassedKeepsOneToOne(s, c);
  }

  /** `runs` is what the runs become when event e is posted, or dropped. */
  ghost predicate RunsPost(s: System, e: Event, runs: map<nat, Run>) {
    && runs.Keys == s.runs.Keys
    && (forall r | r in s.runs :: runs[r].phase.Done? <==> s.runs[r].phase.Done?)
    && (forall r | r in s.runs :: runs[r].phase.Done? ==> runs[r] == s.runs[r])
    && (forall r: nat :: Expected(runs, r) ==
          Expected(s.runs, r) + if OfRun(e, r) && |s.events| < CAPACITY then [Terminal(e)] else [])
  }

  lemma PostKeepsInStep(s: System, e: Event, runs: map<nat, Run>)
    requires InStep(s) && RunsPost(s, e, runs)
    ensures InStep(Submitted(s, e).(runs := runs))
  {
    var t := Submitted(s, e).(runs := runs);
    forall r: nat
      ensures Tags(t.events, r) == Expected(t.runs, r)
    {
      TagsAppend(s.events, e, r);
      assert Tags(s.events, r) == Expected(s.runs, r);
      assert Expected(runs, r)
             == Expected(s.runs, r) + if OfRun(e, r) && |s.events| < CAPACITY then [Terminal(e)] else [];
    }
  }

  lemma PostKeepsReg(s: System, e: Event, runs: map<nat, Run>)
    requires RegInv(s) && RunsPost(s, e, runs)
    requires Terminal(e) || e.EvStarted? ==> e.rid in s.runs && e.key == s.core.launched[e.rid].key
    ensures RegInv(Submitted(s, e).(runs := runs))
  {
    PostKeepsInStep(s, e, runs);
  }

  lemma SubmitKeepsReg(s: System, e: Event)
    requires RegInv(s) && Enabled(s, Submit(e))
    ensures RegInv(Submitted(s, e))
  {
    PostKeepsReg(s, e, s.runs);
    assert Submitted(s, e).(runs := s.runs) == Submitted(s, e);
  }

  /** One live run posts event e and becomes `run`. */
  lemma RunPosts(s: System, e: Event, rid: nat, run: Run)
    requires rid in s.runs && s.runs[rid].phase.Live? && OfRun(e, rid) && !run.phase.Done?
    requires Expected(map[rid := run], rid) ==
               Expected(s.runs, rid) + if |s.events| < CAPACITY then [Terminal(e)] else []
    ensures RunsPost(s, e, s.runs[rid := run])
  {
  }

  lemma PostStartedKeepsReg(cfg: Config, s: System, rid: nat, slot: string, claim: string)
    requires RegInv(s) && Enabled(s, PostStarted(rid, slot, claim))
    ensures RegInv(Apply(cfg, s, PostStarted(rid, slot, claim)))
  {
    var e := EvStarted(rid, s.core.launched[rid].key, slot, claim);
    var run := Run(Live, if |s.events| < CAPACITY then Queued else Never);
    RunPosts(s, e, rid, run);
    PostKeepsReg(s, e, s.runs[rid := run]);
  }

  lemma PostEndKeepsReg(cfg: Config, s: System, e: Event)
    requires RegInv(s) && Enabled(s, PostEnd(e))
    ensures RegInv(Apply(cfg, s, PostEnd(e)))
  {
    var run := s.runs[e.rid].(phase := if |s.events| < CAPACITY then Posted else Lost);
    RunPosts(s, e, e.rid, run);
    PostKeepsReg(s, e, s.runs[e.rid := run]);
  }

  lemma PostDoneKeepsReg(cfg: Config, s: System, rid: nat)
    requires RegInv(s) && Enabled(s, PostDone(rid))
    ensures RegInv(Apply(cfg, s, PostDone(rid)))
  {
    var e := EvPolicyDone(rid, s.core.launched[rid].key);
    PostKeepsReg(s, e, s.runs);
    TasksKeepReg(Submitted(s, e).(runs := s.runs), Apply(cfg, s, PostDone(rid)).tasks);
    assert Submitted(s, e).(runs := s.runs) == Submitted(s, e);
  }

  lemma TasksKeepReg(s: System, tasks: map<nat, Phase>)
    requires RegInv(s)
    ensures RegInv(s.(tasks := tasks))
  {
    var t := s.(tasks := tasks);
    forall r: nat
      ensures Tags(t.events, r) == Expected(t.runs, r)
    {
      assert Tags(s.events, r) == Expected(s.runs, r);
    }
  }

  /** A change of the core that leaves the registry's entries and the launches alone. */
  lemma CoreEditKeepsReg(s: System, c: Core, acts: map<nat, Act>)
    requires RegInv(s) && SameEntries(s.core, c) && c.launched == s.core.launched
    ensures RegInv(s.(core := c, acts := acts))
  {
    SameEntriesEvolve(s.core, c);
    var t := s.(core := c, acts := acts);
    assert forall r | r in s.runs :: Backs(c, r) <==> Backs(s.core, r);
    assert InStep(t) by {
      forall r: nat
        ensures Tags(t.events, r) == Expected(t.runs, r)
      {
        assert Tags(s.events, r) == Expected(s.runs, r);
      }
    }
  }

  lemma ActBeginKeepsReg(cfg: Config, s: System, id: nat, key: JobId, req: Request)
    requires RegInv(s) && Enabled(s, ActBegin(id, key, req))
    ensures RegInv(Apply(cfg, s, ActBegin(id, key, req)))
  {
    var t := Apply(cfg, s, ActBegin(id, key, req));
    forall r: nat
      ensures Tags(t.events, r) == Expected(t.runs, r)
    {
      assert Tags(s.events, r) == Expected(s.runs, r);
    }
  }

  lemma StepKeepsReg(cfg: Config, s: System, step: Step)
    requires RegInv(s) && Enabled(s, step)
    ensures RegInv(Apply(cfg, s, step))
  {
    match step
    case Submit(ev) => SubmitKeepsReg(s, ev);
    case PostStarted(rid, slot, claim) => PostStartedKeepsReg(cfg, s, rid, slot, claim);
    case PostEnd(ev) => PostEndKeepsReg(cfg, s, ev);
    case PostDone(rid) => PostDoneKeepsReg(cfg, s, rid);
    case Deliver(verdict, scan, now) => DeliverKeepsReg(cfg, s, verdict, scan, now);
    case Sweep(victims, renewed, now) => CoreEditKeepsReg(s, OnSweep(s.core, victims, renewed, now), s.acts);
    case ActBegin(id, key, req) => ActBeginKeepsReg(cfg, s, id, key, req);
    case ActEnd(id, now) => CoreEditKeepsReg(s, Written(s.core, s.acts[id], now), s.acts - {id});
    case ActFail(id) => CoreEditKeepsReg(s, s.core, s.acts - {id});
    case Arrive(key, job) => CoreEditKeepsReg(s, Edit(s.core, key, job), s.acts);
  }
}
