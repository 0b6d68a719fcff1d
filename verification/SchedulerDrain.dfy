/** Channels, the drain and claims over whole runs of the system. */
module SchedulerDrain {
  import opened Common
  import opened SchedulerCore
  import opened SchedulerSystem
  import opened SchedulerRegistry
  import opened SchedulerChannels

  // ----- the drain -----

  function Drains(events: seq<Event>): nat {
    if events == [] then 0 else One(events[0].EvDrain?) + Drains(events[1..])
  }

  lemma {:induction false} DrainsAppend(events: seq<Event>, e: Event)
    ensures Drains(events + [e]) == Drains(events) + One(e.EvDrain?)
  {
    if events == [] {
      assert events + [e] == [e];
    } else {
      assert (events + [e])[1..] == events[1..] + [e];
      DrainsAppend(events[1..], e);
    }
  }

  /** At most one drain ever; its channel is pending while runs are registered and closed after. */
  predicate DrainInv(s: System) {
    && Drains(s.events) + One(s.core.draining) <= One(s.stopping)
    && (s.core.draining <==> s.drainChan.Some?)
    && s.core.drainDone == (if s.core.draining && s.core.running != map[] then s.drainChan else None)
    && (s.core.draining && s.core.running == map[] ==> s.drainChan.value in s.core.closed)
  }

  lemma EvDrainKeepsDrain(cfg: Config, s: System, now: int)
    requires DrainInv(s) && s.events != [] && s.events[0].EvDrain?
    ensures DrainInv(Passed(s, OnDrain(cfg, s.core, s.events[0].drained, now)))
  {
    var c := OnDrain(cfg, s.core, s.events[0].drained, now);
    assert c.running.Keys == s.core.running.Keys;
  }

  lemma DeliverKeepsDrain(cfg: Config, s: System, verdict: Verdict, scan: seq<JobId>, now: int)
    requires DrainInv(s) && s.events != [] && NoDups(scan)
    ensures DrainInv(Passed(s, Handle(cfg, s.core, s.events[0], verdict, scan, now)))
  {
    if s.events[0].EvDrain? {
      EvDrainKeepsDrain(cfg, s, now);
    } else {
      HandleDrains(cfg, s.core, s.events[0], verdict, scan, now);
      PassedKeepsDrain(s, Handle(cfg, s.core, s.events[0], verdict, scan, now));
    }
  }

  lemma PassedKeepsDrain(s: System, c: Core)
    requires DrainInv(s) && s.events != [] && !s.events[0].EvDrain?
    requires if s.core.draining then DrainsOn(s.core, c) else StaysOpen(s.core, c)
    ensures DrainInv(Passed(s, c))
  {
  }

  lemma SubmittedKeepsDrain(s: System, e: Event)
    requires DrainInv(s) && (e.EvDrain? ==> !s.stopping)
    ensures DrainInv(Submitted(s, e))
  {
    DrainsAppend(s.events, e);
  }

  /** Neither a post nor an edit of the job records or run flags touches the drain. */
  lemma FrameKeepsDrain(s: System, t: System)
    requires DrainInv(s) && t.events == s.events && t.stopping == s.stopping && t.drainChan == s.drainChan
    requires t.core.draining == s.core.draining && t.core.drainDone == s.core.drainDone
             && t.core.closed == s.core.closed
    requires t.core.running.Keys == s.core.running.Keys
    ensures DrainInv(t)
  {
  }

  lemma StepKeepsDrain(cfg: Config, s: System, step: Step)
    requires DrainInv(s) && Enabled(s, step)
    ensures DrainInv(Apply(cfg, s, step))
  {
    match step
    case Submit(ev) => SubmittedKeepsDrain(s, ev);
    case PostStarted(rid, slot, claim) =>
      var e := EvStarted(rid, s.core.launched[rid].key, slot, claim);
      SubmittedKeepsDrain(s, e);
      FrameKeepsDrain(Submitted(s, e), Apply(cfg, s, step));
    case PostEnd(ev) =>
      SubmittedKeepsDrain(s, ev);
      FrameKeepsDrain(Submitted(s, ev), Apply(cfg, s, step));
    case PostDone(rid) =>
      var e := EvPolicyDone(rid, s.core.launched[rid].key);
      SubmittedKeepsDrain(s, e);
      FrameKeepsDrain(Submitted(s, e), Apply(cfg, s, step));
    case Deliver(verdict, scan, now) => DeliverKeepsDrain(cfg, s, verdict, scan, now);
    case _ => FrameKeepsDrain(s, Apply(cfg, s, step));
  }

  // ----- channels -----

  function InFlight(events: seq<Event>, ch: nat): nat {
    if events == [] then 0 else One(DoneOf(events[0]) == Some(ch)) + InFlight(events[1..], ch)
  }

  lemma {:induction false} InFlightAppend(events: seq<Event>, e: Event, ch: nat)
    ensures InFlight(events + [e], ch) == InFlight(events, ch) + One(DoneOf(e) == Some(ch))
  {
    if events == [] {
      assert events + [e] == [e];
    } else {
      assert (events + [e])[1..] == events[1..] + [e];
      InFlightAppend(events[1..], e, ch);
    }
  }

  /** A channel made so far is in exactly one place; one not made yet is in none. */
  predicate Placed(s: System, ch: nat) {
    InFlight(s.events, ch) + Held(s.core, ch) + One(ch in s.lostChans) == One(ch < s.nextChan)
  }

  ghost predicate ChanInv(s: System) { SingleWaits(s.core) && forall ch: nat :: Placed(s, ch) }

  lemma DeliverKeepsChans(cfg: Config, s: System, verdict: Verdict, scan: seq<JobId>, now: int)
    requires DrainInv(s) && ChanInv(s) && s.events != [] && NoDups(scan)
    ensures ChanInv(Passed(s, Handle(cfg, s.core, s.events[0], verdict, scan, now)))
  {
    var e := s.events[0];
    var c := Handle(cfg, s.core, e, verdict, scan, now);
    if DoneOf(e).Some? {
      assert Placed(s, DoneOf(e).value);
    }
    HandleConserves(cfg, s.core, e, verdict, scan, now);
    PassedKeepsChans(s, c);
  }

  lemma PassedKeepsChans(s: System, c: Core)
    requires ChanInv(s) && s.events != [] && Conserves(s.core, c, DoneOf(s.events[0]))
    ensures ChanInv(Passed(s, c))
  {
    forall ch: nat
      ensures Placed(Passed(s, c), ch)
    {
      assert Placed(s, ch);
      assert Held(c, ch) == Held(s.core, ch) + One(DoneOf(s.events[0]) == Some(ch));
    }
  }

  lemma SubmittedKeepsChans(s: System, e: Event)
    requires ChanInv(s) && (DoneOf(e).Some? ==> DoneOf(e).value == s.nextChan)
    ensures ChanInv(Submitted(s, e))
  {
    forall ch: nat
      ensures Placed(Submitted(s, e), ch)
    {
      assert Placed(s, ch);
      InFlightAppend(s.events, e, ch);
    }
  }

  lemma FrameKeepsChans(s: System, t: System)
    requires ChanInv(s) && t.events == s.events && t.lostChans == s.lostChans && t.nextChan == s.nextChan
    requires t.core.drainDone == s.core.drainDone && t.core.closed == s.core.closed && SameWaits(s.core, t.core)
    ensures ChanInv(t)
  {
    SameWaitsConserve(s.core, t.core);
    forall ch: nat
      ensures Placed(t, ch)
    {
      assert Placed(s, ch);
      assert Held(t.core, ch) == Held(s.core, ch) + One(None == Some(ch));
    }
  }

  lemma StepKeepsChans(cfg: Config, s: System, step: Step)
    requires DrainInv(s) && ChanInv(s) && Enabled(s, step)
    ensures ChanInv(Apply(cfg, s, step))
  {
    match step
    case Submit(ev) => SubmittedKeepsChans(s, ev);
    case PostStarted(rid, slot, claim) =>
      var e := EvStarted(rid, s.core.launched[rid].key, slot, claim);
      SubmittedKeepsChans(s, e);
      FrameKeepsChans(Submitted(s, e), Apply(cfg, s, step));
    case PostEnd(ev) =>
      SubmittedKeepsChans(s, ev);
      FrameKeepsChans(Submitted(s, ev), Apply(cfg, s, step));
    case PostDone(rid) =>
      var e := EvPolicyDone(rid, s.core.launched[rid].key);
      SubmittedKeepsChans(s, e);
      FrameKeepsChans(Submitted(s, e), Apply(cfg, s, step));
    case Deliver(verdict, scan, now) => DeliverKeepsChans(cfg, s, verdict, scan, now);
    case _ => FrameKeepsChans(s, Apply(cfg, s, step));
  }

  // ----- claims -----

  /** The grant's claim was given to a run or handed back, at the grant's own position. */
  predicate Settled(c: Core, g: Grant) {
    g.at < |c.launched| && (c.launched[g.at] == ReleaseClaim(g.claim)
                            || (c.launched[g.at].RunJob? && c.launched[g.at].claim == g.claim))
  }

  /** Delivered matches and what became of them correspond one to one, in order. */
  predicate GrantInv(s: System) {
    && (forall i | 0 <= i < |s.grants| :: Settled(s.core, s.grants[i]))
    && (forall i, j | 0 <= i < j < |s.grants| :: s.grants[i].at < s.grants[j].at)
    && (forall p | 0 <= p < |s.core.launched| && s.core.launched[p].RunJob? ::
          exists i :: 0 <= i < |s.grants| && s.grants[i].at == p)
  }

  predicate NoNewJobs(c: Core, d: Core) {
    Prefix(c, d) && forall p | |c.launched| <= p < |d.launched| :: !d.launched[p].RunJob?
  }

  lemma {:induction false} ReattachLaunches(c: Core, rs: seq<Recovered>)
    ensures NoNewJobs(c, Reattach(c, rs))
  {
    if rs != [] {
      ReattachLaunches(c, rs[..|rs| - 1]);
    }
  }

  lemma HandleLaunches(cfg: Config, c: Core, e: Event, verdict: Verdict, scan: seq<JobId>, now: int)
    requires !e.EvMatch?
    ensures NoNewJobs(c, Handle(cfg, c, e, verdict, scan, now))
  {
    if e.EvRecover? {
      ReattachLaunches(c.(jobs := RequeueAll(c.jobs, Stale(c, scan, now), now)), Recoveries(c, scan, now));
    }
  }

  lemma PassedKeepsGrants(s: System, c: Core)
    requires GrantInv(s) && s.events != [] && !s.events[0].EvMatch? && NoNewJobs(s.core, c)
    ensures GrantInv(Passed(s, c))
  {
  }

  /** A match and its launch are noted together. */
  lemma LaunchKeepsGrants(s: System, t: System, claim: string, l: Launch)
    requires GrantInv(s) && (l == ReleaseClaim(claim) || (l.RunJob? && l.claim == claim))
    requires t.core.launched == s.core.launched + [l] && t.grants == s.grants + [Grant(claim, |s.core.launched|)]
    ensures GrantInv(t)
  {
    assert t.grants[|s.grants|].at == |s.core.launched|;
    forall p | 0 <= p < |t.core.launched| && t.core.launched[p].RunJob?
      ensures exists i :: 0 <= i < |t.grants| && t.grants[i].at == p
    {
      if p < |s.core.launched| {
        var i :| 0 <= i < |s.grants| && s.grants[i].at == p;
        assert t.grants[i].at == p;
      }
    }
  }

  lemma MatchKeepsGrants(s: System)
    requires GrantInv(s) && s.events != [] && s.events[0].EvMatch?
    ensures GrantInv(Passed(s, OnMatch(s.core, s.events[0].key, s.events[0].claim, s.events[0].slot)))
  {
    var e := s.events[0];
    var c := OnMatch(s.core, e.key, e.claim, e.slot);
    LaunchKeepsGrants(s, Passed(s, c), e.claim, c.launched[|s.core.launched|]);
  }

  lemma FrameKeepsGrants(s: System, t: System)
    requires GrantInv(s) && t.grants == s.grants && t.core.launched == s.core.launched
    ensures GrantInv(t)
  {
  }

  lemma StepKeepsGrants(cfg: Config, s: System, step: Step)
    requires GrantInv(s) && Enabled(s, step)
    ensures GrantInv(Apply(cfg, s, step))
  {
    match step
    case Deliver(verdict, scan, now) =>
      if s.events[0].EvMatch? {
        MatchKeepsGrants(s);
      } else {
        HandleLaunches(cfg, s.core, s.events[0], verdict, scan, now);
        PassedKeepsGrants(s, Handle(cfg, s.core, s.events[0], verdict, scan, now));
      }
    case _ => FrameKeepsGrants(s, Apply(cfg, s, step));
  }
}
