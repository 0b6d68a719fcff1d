/**
 One negotiation round: offering request groups, assigning matches to their members, and
 rejections. Sockets are left out: an opcode is an operation of the round.
 */
module Negotiate {
  import opened Common
  import opened RequestGroups

  datatype Match = Match(job: JobId, claim: string)

  const NOBODY: JobId := JobId(-1, -1)

  datatype GroupState = GroupState(rep: JobId, ids: seq<JobId>, assignIdx: nat, rejected: bool)

  /** `byRep` and `last` point into `offered`. `picks` records, for every match forwarded, the group
      and the member it was given to, if any. */
  datatype State = State(
    pending: seq<Group>,
    offered: seq<GroupState>,
    byRep: map<JobId, nat>,
    last: Option<nat>,
    sent: nat,
    matched: nat,
    forwarded: seq<Match>,
    picks: seq<Option<(nat, nat)>>)

  /** What inspecting the members of a group in turn finds: the positions whose member is idle
      at the moment it is looked at. A match inspects each position at most once. */
  type Idle = set<nat>

  /** SEND_JOB_INFO and SEND_RESOURCE_REQUEST_LIST, PERMISSION_AND_AD, and the two rejections. */
  datatype Op = Send(n: int) | Grant(m: Match, idle: Idle) | Reject(rep: Option<JobId>)

  function Offer(s: State, g: Group): State
    requires g.ids != []
  {
    s.(offered := s.offered + [GroupState(g.ids[0], g.ids, 0, false)],
       byRep := s.byRep[g.ids[0] := |s.offered|],
       last := Some(|s.offered|),
       sent := s.sent + 1)
  }

  /** Up to n groups are offered; the round's groups are never empty. */
  function OnSend(s: State, n: int): State
    requires forall i | 0 <= i < |s.pending| :: s.pending[i].ids != []
    decreases n
  {
    if n <= 0 || s.pending == [] then s
    else OnSend(Offer(s, s.pending[0]).(pending := s.pending[1..]), n - 1)
  }

  /** The first idle member at or after position i, or the end. */
  function NextAt(ids: seq<JobId>, i: nat, idle: Idle): (n: nat)
    requires i <= |ids|
    ensures i <= n <= |ids| && (n < |ids| ==> n in idle) && forall j | i <= j < n :: j !in idle
    decreases |ids| - i
  {
    if i == |ids| || i in idle then i else NextAt(ids, i + 1, idle)
  }

  /** The member a match for this group goes to. */
  function Pick(gs: GroupState, idle: Idle): Option<nat>
    requires gs.assignIdx <= |gs.ids|
  {
    if gs.rejected then None
    else
      var n := NextAt(gs.ids, gs.assignIdx, idle);
      if n < |gs.ids| then Some(n) else None
  }

  function Advanced(gs: GroupState, idle: Idle): GroupState
    requires gs.assignIdx <= |gs.ids|
  {
    if gs.rejected then gs
    else
      var n := NextAt(gs.ids, gs.assignIdx, idle);
      gs.(assignIdx := if n < |gs.ids| then n + 1 else n)
  }

  function Forward(s: State, m: Match, pick: Option<(nat, nat)>): State {
    s.(matched := if m.job.cluster >= 0 then s.matched + 1 else s.matched,
       forwarded := s.forwarded + [m],
       picks := s.picks + [pick])
  }

  predicate Pointers(s: State) {
    && (forall rep | rep in s.byRep :: s.byRep[rep] < |s.offered|)
    && (s.last.Some? ==> s.last.value < |s.offered|)
    && (forall g | 0 <= g < |s.offered| :: s.offered[g].assignIdx <= |s.offered[g].ids|)
  }

  function OnGrant(s: State, m: Match, idle: Idle): State
    requires Pointers(s)
  {
    if m.job !in s.byRep then Forward(s, m, None)
    else
      var g := s.byRep[m.job];
      var gs := s.offered[g];
      var pick := Pick(gs, idle);
      var s1 := s.(offered := s.offered[g := Advanced(gs, idle)]);
      if pick.Some? then Forward(s1, m.(job := gs.ids[pick.value]), Some((g, pick.value)))
      else Forward(s1, m.(job := NOBODY), None)
  }

  function Target(s: State, rep: Option<JobId>): Option<nat> {
    if rep.Some? && rep.value in s.byRep then Some(s.byRep[rep.value]) else s.last
  }

  function OnReject(s: State, rep: Option<JobId>): State
    requires Pointers(s)
  {
    var g := Target(s, rep);
    if g.Some? then s.(offered := s.offered[g.value := s.offered[g.value].(rejected := true)]) else s
  }

  // ----- the round as an object -----

  class Round {
    var pending: seq<Group>
    var offered: seq<GroupState>
    var byRep: map<JobId, nat>
    var last: Option<nat>
    var sent: nat
    var matched: nat
    var forwarded: seq<Match>
    ghost var picks: seq<Option<(nat, nat)>>

    ghost function View(): State
      reads this
    {
      State(pending, offered, byRep, last, sent, matched, forwarded, picks)
    }

    ghost predicate Valid()
      reads this
    {
      Pointers(View()) && forall i | 0 <= i < |pending| :: pending[i].ids != []
    }

    constructor (groups: seq<Group>)
      requires forall i | 0 <= i < |groups| :: groups[i].ids != []
      ensures Valid() && View() == Opened(groups)
    {
      pending, offered, byRep, last := groups, [], map[], None;
      sent, matched, forwarded, picks := 0, 0, [], [];
    }

    method SendGroup(g: Group)
      requires g.ids != []
      modifies this`offered, this`byRep, this`last, this`sent
      ensures View() == Offer(old(View()), g)
    {
      var rep := g.ids[0];
      byRep := byRep[rep := |offered|];
      last := Some(|offered|);
      offered := offered + [GroupState(rep, g.ids, 0, false)];
      sent := sent + 1;
    }

    method SendRequests(n: int)
      requires Valid()
      modifies this`pending, this`offered, this`byRep, this`last, this`sent
      ensures Valid() && View() == OnSend(old(View()), n)
    {
      var i := 0;
      while i < n
        invariant i <= n || i == 0
        invariant Valid() && OnSend(View(), n - i) == OnSend(old(View()), n)
      {
        if pending == [] {
          return;
        }
        var g := pending[0];
        pending := pending[1..];
        SendGroup(g);
        i := i + 1;
      }
    }

    /** Advances the group's cursor past every member it inspects. */
    method NextIdle(g: nat, idle: Idle) returns (job: Option<JobId>, ghost pick: Option<nat>)
      requires g < |offered| && offered[g].assignIdx <= |offered[g].ids|
      modifies this`offered
      ensures offered == old(offered)[g := Advanced(old(offered)[g], idle)]
      ensures pick == Pick(old(offered)[g], idle)
      ensures job == if pick.Some? then Some(old(offered)[g].ids[pick.value]) else None
    {
      var gs := offered[g];
      if gs.rejected {
        assert offered == offered[g := gs];
        return None, None;
      }
      ghost var start := gs.assignIdx;
      while gs.assignIdx < |gs.ids|
        invariant start <= gs.assignIdx <= |gs.ids|
        invariant gs == old(offered)[g].(assignIdx := gs.assignIdx)
        invariant NextAt(gs.ids, gs.assignIdx, idle) == NextAt(gs.ids, start, idle)
      {
        var i := gs.assignIdx;
        gs := gs.(assignIdx := i + 1);
        if i in idle {
          offered := offered[g := gs];
          return Some(gs.ids[i]), Some(i);
        }
      }
      offered := offered[g := gs];
      return None, None;
    }

    method HandleMatch(m: Match, idle: Idle)
      requires Valid()
      modifies this`offered, this`matched, this`forwarded, this`picks
      ensures Valid() && View() == OnGrant(old(View()), m, idle)
    {
      var out := m;
      ghost var pick := None;
      if m.job in byRep {
        ghost var n;
        var job;
        job, n := NextIdle(byRep[m.job], idle);
        if job.None? {
          out := out.(job := NOBODY);
        } else {
          out := out.(job := job.value);
          pick := Some((byRep[m.job], n.value));
        }
      }
      if out.job.cluster >= 0 {
        matched := matched + 1;
      }
      forwarded := forwarded + [out];
      picks := picks + [pick];
    }

    method HandleReject(rep: Option<JobId>)
      requires Valid()
      modifies this`offered
      ensures Valid() && View() == OnReject(old(View()), rep)
    {
      var g := last;
      if rep.Some? && rep.value in byRep {
        g := Some(byRep[rep.value]);
      }
      if g.Some? {
        offered := offered[g.value := offered[g.value].(rejected := true)];
      }
    }
  }

  // ----- whole rounds -----

  function Opened(groups: seq<Group>): State { State(groups, [], map[], None, 0, 0, [], []) }

  /** The round's groups do not share jobs: the index they are cut from has each job once. */
  predicate Separate(groups: seq<Group>) {
    && (forall g | 0 <= g < |groups| :: groups[g].ids != [])
    && (forall g, h, i, j | 0 <= g < |groups| && 0 <= h < |groups| && 0 <= i < |groups[g].ids|
        && 0 <= j < |groups[h].ids|
          && groups[g].ids[i] == groups[h].ids[j] :: g == h && i == j)
    && (forall g, i | 0 <= g < |groups| && 0 <= i < |groups[g].ids| :: groups[g].ids[i].cluster >= 0)
  }

  lemma FlatThree(a: seq<Group>, g: Group, b: seq<Group>)
    ensures Flat(a + ([g] + b)) == Flat(a) + (Members(g) + Flat(b))
  {
    FlatConcat(a, [g] + b);
    FlatFront([g] + b);
    assert ([g] + b)[1..] == b;
  }

  lemma MiddleAt(x: seq<(JobId, nat)>, g: Group, y: seq<(JobId, nat)>, i: nat)
    requires i < |g.ids|
    ensures |x| + i < |x + (Members(g) + y)| && (x + (Members(g) + y))[|x| + i] == (g.ids[i], g.sum)
  {
  }

  /** Where member i of group g stands among all the jobs. */
  lemma MemberAt(gs: seq<Group>, g: nat, i: nat) returns (at: nat)
    requires g < |gs| && i < |gs[g].ids|
    ensures at == |Flat(gs[..g])| + i && at < |Flat(gs)| && Flat(gs)[at] == (gs[g].ids[i], gs[g].sum)
  {
    at := |Flat(gs[..g])| + i;
    FlatThree(gs[..g], gs[g], gs[g + 1..]);
    MiddleAt(Flat(gs[..g]), gs[g], Flat(gs[g + 1..]), i);
    assert gs == gs[..g] + ([gs[g]] + gs[g + 1..]);
  }

  lemma {:induction false} LaterGroupsFollow(gs: seq<Group>, g: nat, h: nat)
    requires g < h <= |gs|
    ensures |Flat(gs[..g])| + |gs[g].ids| <= |Flat(gs[..h])|
    decreases h
  {
    assert gs[..h][..h - 1] == gs[..h - 1];
    if g < h - 1 {
      LaterGroupsFollow(gs, g, h - 1);
    }
  }

  /** The groups of an index that has each job once do not share jobs. */
  lemma GroupsAreSeparate(index: seq<Entry>)
    requires forall m, n | 0 <= m < n < |RequestGroups.Jobs(index)| ::
             RequestGroups.Jobs(index)[m].0 != RequestGroups.Jobs(index)[n].0
    requires forall n | 0 <= n < |RequestGroups.Jobs(index)| :: RequestGroups.Jobs(index)[n].0.cluster >= 0
    ensures Separate(Groups(index))
  {
    var gs := Groups(index);
    GroupingIsLossless(index);
    forall g, h, i, j | 0 <= g < |gs| && 0 <= h < |gs| && 0 <= i < |gs[g].ids| && 0 <= j < |gs[h].ids|
      && gs[g].ids[i] == gs[h].ids[j]
      ensures g == h && i == j
    {
      var at := MemberAt(gs, g, i);
      var bt := MemberAt(gs, h, j);
      if g < h {
        LaterGroupsFollow(gs, g, h);
      } else if h < g {
        LaterGroupsFollow(gs, h, g);
      }
    }
    forall g, i | 0 <= g < |gs| && 0 <= i < |gs[g].ids|
      ensures gs[g].ids[i].cluster >= 0
    {
      var at := MemberAt(gs, g, i);
    }
  }

  /** The members of group g that matches went to. */
  function Given(picks: seq<Option<(nat, nat)>>, g: nat): nat {
    if picks == [] then 0
    else Given(picks[..|picks| - 1], g)
         + if picks[|picks| - 1].Some? && picks[|picks| - 1].value.0 == g then 1 else 0
  }

  /** The groups offered so far are the first of the round's, and the rest is pending. */
  predicate Follows(groups: seq<Group>, s: State) {
    && |s.offered| + |s.pending| == |groups|
    && (forall g | 0 <= g < |s.offered| ::
          groups[g].ids != [] && s.offered[g].ids == groups[g].ids && s.offered[g].rep == groups[g].ids[0])
    && (forall i | 0 <= i < |s.pending| :: s.pending[i] == groups[|s.offered| + i])
  }

  predicate ByRepOk(s: State) {
    forall rep | rep in s.byRep :: s.byRep[rep] < |s.offered| && s.offered[s.byRep[rep]].rep == rep
  }

  /** The pick, if any, lies behind its group's cursor, and the match went to that member. */
  predicate PickOk(offered: seq<GroupState>, pick: Option<(nat, nat)>, m: Match) {
    pick.Some? ==>
      var g, i := pick.value.0, pick.value.1;
      g < |offered| && i < offered[g].assignIdx && i < |offered[g].ids| && m.job == offered[g].ids[i]
  }

  predicate PicksOk(s: State) {
    && |s.picks| == |s.forwarded|
    && (forall n | 0 <= n < |s.picks| :: PickOk(s.offered, s.picks[n], s.forwarded[n]))
  }

  predicate PicksDistinct(s: State) {
    forall m, n | 0 <= m < n < |s.picks| && s.picks[m].Some? :: s.picks[m] != s.picks[n]
  }

  predicate GivenOk(s: State) { forall g | 0 <= g < |s.offered| :: Given(s.picks, g) <= s.offered[g].assignIdx }

  predicate RoundInv(groups: seq<Group>, s: State) {
    Pointers(s) && Follows(groups, s) && ByRepOk(s) && PicksOk(s) && PicksDistinct(s) && GivenOk(s)
  }

  lemma {:induction false} GivenNone(picks: seq<Option<(nat, nat)>>, g: nat)
    requires forall n | 0 <= n < |picks| && picks[n].Some? :: picks[n].value.0 != g
    ensures Given(picks, g) == 0
  {
    if picks != [] {
      GivenNone(picks[..|picks| - 1], g);
    }
  }

  lemma GivenMore(picks: seq<Option<(nat, nat)>>, pick: Option<(nat, nat)>, g: nat)
    ensures Given(picks + [pick], g) == Given(picks, g) + if pick.Some? && pick.value.0 == g then 1 else 0
  {
    assert (picks + [pick])[..|picks|] == picks;
  }

  lemma OfferKeepsInv(groups: seq<Group>, s: State)
    requires RoundInv(groups, s) && s.pending != [] && Separate(groups)
    ensures RoundInv(groups, Offer(s, s.pending[0]).(pending := s.pending[1..]))
  {
    GivenNone(s.picks, |s.offered|);
  }

  lemma {:induction false} SendKeepsInv(groups: seq<Group>, s: State, n: int)
    requires RoundInv(groups, s) && Separate(groups)
    ensures RoundInv(groups, OnSend(s, n))
    ensures OnSend(s, n).forwarded == s.forwarded && OnSend(s, n).picks == s.picks
            && |s.offered| <= |OnSend(s, n).offered|
    ensures forall g | 0 <= g < |s.offered| :: OnSend(s, n).offered[g] == s.offered[g]
    decreases n
  {
    if n > 0 && s.pending != [] {
      OfferKeepsInv(groups, s);
      SendKeepsInv(groups, Offer(s, s.pending[0]).(pending := s.pending[1..]), n - 1);
    }
  }

  /** Replacing a group's state by one with the same members and a cursor no further back. */
  predicate MovesOn(gs: GroupState, hs: GroupState) {
    hs.rep == gs.rep && hs.ids == gs.ids && gs.assignIdx <= hs.assignIdx <= |gs.ids|
  }

  lemma MoveKeepsInv(groups: seq<Group>, s: State, g: nat, hs: GroupState)
    requires RoundInv(groups, s) && g < |s.offered| && MovesOn(s.offered[g], hs)
    ensures RoundInv(groups, s.(offered := s.offered[g := hs]))
  {
    var t := s.(offered := s.offered[g := hs]);
    forall n | 0 <= n < |t.picks|
      ensures PickOk(t.offered, t.picks[n], t.forwarded[n])
    {
      assert PickOk(s.offered, s.picks[n], s.forwarded[n]);
    }
  }

  /** Recording a pick between the old and the new position of its group's cursor. */
  lemma ForwardKeepsInv(groups: seq<Group>, s: State, m: Match, pick: Option<(nat, nat)>)
    requires RoundInv(groups, s) && PickOk(s.offered, pick, m)
    requires pick.Some? ==> forall n | 0 <= n < |s.picks| :: s.picks[n] != pick
    requires pick.Some? ==> Given(s.picks, pick.value.0) < s.offered[pick.value.0].assignIdx
    ensures RoundInv(groups, Forward(s, m, pick))
  {
    var t := Forward(s, m, pick);
    forall h | 0 <= h < |t.offered|
      ensures Given(t.picks, h) <= t.offered[h].assignIdx
    {
      GivenMore(s.picks, pick, h);
    }
  }

  /** A match for no offered group passes through. */
  lemma StrangerKeepsInv(groups: seq<Group>, s: State, m: Match, idle: Idle)
    requires RoundInv(groups, s) && m.job !in s.byRep
    ensures RoundInv(groups, OnGrant(s, m, idle))
  {
    ForwardKeepsInv(groups, s, m, None);
  }

  lemma GrantKeepsInv(groups: seq<Group>, s: State, m: Match, idle: Idle)
    requires RoundInv(groups, s) && m.job in s.byRep
    ensures RoundInv(groups, OnGrant(s, m, idle))
  {
    var g := s.byRep[m.job];
    var gs := s.offered[g];
    var pick := Pick(gs, idle);
    var s1 := s.(offered := s.offered[g := Advanced(gs, idle)]);
    MoveKeepsInv(groups, s, g, Advanced(gs, idle));
    if pick.Some? {
      forall n | 0 <= n < |s.picks|
        ensures s.picks[n] != Some((g, pick.value))
      {
        assert PickOk(s.offered, s.picks[n], s.forwarded[n]);
      }
      ForwardKeepsInv(groups, s1, m.(job := gs.ids[pick.value]), Some((g, pick.value)));
    } else {
      ForwardKeepsInv(groups, s1, m.(job := NOBODY), None);
    }
  }

  lemma RejectKeepsInv(groups: seq<Group>, s: State, rep: Option<JobId>)
    requires RoundInv(groups, s)
    ensures RoundInv(groups, OnReject(s, rep))
  {
    var g := Target(s, rep);
    if g.Some? {
      MoveKeepsInv(groups, s, g.value, s.offered[g.value].(rejected := true));
    }
  }

  /** A match names the representative of an offered group. */
  predicate Named(s: State, op: Op) { op.Grant? ==> op.m.job in s.byRep }

  /** The pointers are in range and the groups still to offer are not empty. */
  predicate Ready(s: State) { Pointers(s) && forall i | 0 <= i < |s.pending| :: s.pending[i].ids != [] }

  /** What an opcode does. Every state of a round is ready, as EveryMatchForwardedOnce shows. */
  function Next(s: State, op: Op): State {
    if !Ready(s) then s
    else
      match op
      case Send(n) => OnSend(s, n)
      case Grant(m, idle) => OnGrant(s, m, idle)
      case Reject(rep) => OnReject(s, rep)
  }

  /** The round after a sequence of opcodes. */
  function Run(s: State, ops: seq<Op>): State {
    if ops == [] then s else Next(Run(s, ops[..|ops| - 1]), ops[|ops| - 1])
  }

  /** Every match of the sequence names the representative of a group offered by then. */
  predicate AllNamed(s: State, ops: seq<Op>) {
    ops == [] || (AllNamed(s, ops[..|ops| - 1]) && Named(Run(s, ops[..|ops| - 1]), ops[|ops| - 1]))
  }

  lemma NextKeepsInv(groups: seq<Group>, s: State, op: Op)
    requires RoundInv(groups, s) && Separate(groups)
    ensures Ready(s) && RoundInv(groups, Next(s, op))
  {
    match op
    case Send(n) => SendKeepsInv(groups, s, n);
    case Grant(m, idle) =>
      if m.job in s.byRep {
        GrantKeepsInv(groups, s, m, idle);
      } else {
        StrangerKeepsInv(groups, s, m, idle);
      }
    case Reject(rep) => RejectKeepsInv(groups, s, rep);
  }

  lemma {:induction false} RunKeepsInv(groups: seq<Group>, s: State, ops: seq<Op>)
    requires Separate(groups) && RoundInv(groups, s)
    ensures RoundInv(groups, Run(s, ops))
  {
    if ops != [] {
      RunKeepsInv(groups, s, ops[..|ops| - 1]);
      NextKeepsInv(groups, Run(s, ops[..|ops| - 1]), ops[|ops| - 1]);
    }
  }

  lemma OpenedInv(groups: seq<Group>)
    requires Separate(groups)
    ensures RoundInv(groups, Opened(groups))
  {
  }

  /** Every match without a pick went to nobody. */
  predicate Answered(s: State) {
    |s.picks| == |s.forwarded| && forall n | 0 <= n < |s.picks| && s.picks[n].None? :: s.forwarded[n].job == NOBODY
  }

  lemma {:induction false} NamedAreAnswered(groups: seq<Group>, ops: seq<Op>)
    requires Separate(groups) && AllNamed(Opened(groups), ops)
    ensures Answered(Run(Opened(groups), ops))
  {
    if ops != [] {
      var before := ops[..|ops| - 1];
      NamedAreAnswered(groups, before);
      OpenedInv(groups);
      RunKeepsInv(groups, Opened(groups), before);
      NextKeepsInv(groups, Run(Opened(groups), before), ops[|ops| - 1]);
      NextAnswers(groups, Run(Opened(groups), before), ops[|ops| - 1]);
    }
  }

  lemma NextAnswers(groups: seq<Group>, s: State, op: Op)
    requires RoundInv(groups, s) && Separate(groups) && Ready(s) && Answered(s) && Named(s, op)
    ensures Answered(Next(s, op))
  {
    if op.Send? {
      SendKeepsInv(groups, s, op.n);
    }
  }

  /** No job is assigned to two matches, every assigned job comes from an offered group, and no
      group gets more matches than it has jobs. A match that names an offered group's
      representative is assigned a job or goes to nobody. */
  lemma NoJobAssignedTwice(groups: seq<Group>, ops: seq<Op>)
    requires Separate(groups)
    ensures var t := Run(Opened(groups), ops);
            && |t.picks| == |t.forwarded|
            && (forall m, n | 0 <= m < n < |t.picks| && t.picks[m].Some? && t.picks[n].Some? ::
                  t.forwarded[m].job != t.forwarded[n].job)
            && (forall n | 0 <= n < |t.picks| && t.picks[n].Some? ::
                  exists g :: 0 <= g < |t.offered| && t.forwarded[n].job in t.offered[g].ids)
            && (forall g | 0 <= g < |t.offered| :: Given(t.picks, g) <= |t.offered[g].ids|)
    ensures var t := Run(Opened(groups), ops);
            AllNamed(Opened(groups), ops) ==>
              forall n | 0 <= n < |t.picks| :: t.picks[n].None? <==> t.forwarded[n].job == NOBODY
  {
    var t := Run(Opened(groups), ops);
    OpenedInv(groups);
    RunKeepsInv(groups, Opened(groups), ops);
    RoundAssignsOnce(groups, t);
    if AllNamed(Opened(groups), ops) {
      NamedAreAnswered(groups, ops);
      forall n | 0 <= n < |t.picks| && t.picks[n].Some?
        ensures t.forwarded[n].job != NOBODY
      {
        assert PickOk(t.offered, t.picks[n], t.forwarded[n]);
      }
    }
  }

  lemma RoundAssignsOnce(groups: seq<Group>, t: State)
    requires Separate(groups) && RoundInv(groups, t)
    ensures forall m, n | 0 <= m < n < |t.picks| && t.picks[m].Some? && t.picks[n].Some? ::
              t.forwarded[m].job != t.forwarded[n].job
    ensures forall n | 0 <= n < |t.picks| && t.picks[n].Some? ::
              exists g :: 0 <= g < |t.offered| && t.forwarded[n].job in t.offered[g].ids
    ensures forall g | 0 <= g < |t.offered| :: Given(t.picks, g) <= |t.offered[g].ids|
  {
    forall m, n | 0 <= m < n < |t.picks| && t.picks[m].Some? && t.picks[n].Some?
      ensures t.forwarded[m].job != t.forwarded[n].job
    {
      assert PickOk(t.offered, t.picks[m], t.forwarded[m]) && PickOk(t.offered, t.picks[n], t.forwarded[n]);
      assert t.picks[m] != t.picks[n];
    }
    forall n | 0 <= n < |t.picks| && t.picks[n].Some?
      ensures exists g :: 0 <= g < |t.offered| && t.forwarded[n].job in t.offered[g].ids
    {
      assert PickOk(t.offered, t.picks[n], t.forwarded[n]);
      var g := t.picks[n].value.0;
      assert t.forwarded[n].job in t.offered[g].ids;
    }
  }

  function Claims(ops: seq<Op>): seq<string> {
    if ops == [] then []
    else
      var op := ops[|ops| - 1];
      Claims(ops[..|ops| - 1]) + if op.Grant? then [op.m.claim] else []
  }

  function ForwardedClaims(ms: seq<Match>): seq<string> {
    if ms == [] then [] else ForwardedClaims(ms[..|ms| - 1]) + [ms[|ms| - 1].claim]
  }

  lemma {:induction false} SendForwardsNothing(s: State, n: int)
    requires Ready(s)
    ensures Ready(OnSend(s, n)) && OnSend(s, n).forwarded == s.forwarded
    decreases n
  {
    if n > 0 && s.pending != [] {
      SendForwardsNothing(Offer(s, s.pending[0]).(pending := s.pending[1..]), n - 1);
    }
  }

  lemma NextForwards(s: State, op: Op)
    requires Ready(s)
    ensures Ready(Next(s, op))
    ensures ForwardedClaims(Next(s, op).forwarded)
            == ForwardedClaims(s.forwarded) + if op.Grant? then [op.m.claim] else []
  {
    match op
    case Send(n) => SendForwardsNothing(s, n);
    case Grant(m, idle) =>
      var out := OnGrant(s, m, idle).forwarded;
      assert out[..|out| - 1] == s.forwarded;
    case Reject(_) =>
  }

  /** Whatever the negotiator sends, in whatever order, every match of it is forwarded exactly
      once, in order, and no opcode finds the round out of order. */
  lemma {:induction false} EveryMatchForwardedOnce(groups: seq<Group>, ops: seq<Op>)
    requires forall i | 0 <= i < |groups| :: groups[i].ids != []
    ensures ForwardedClaims(Run(Opened(groups), ops).forwarded) == Claims(ops)
    ensures Ready(Run(Opened(groups), ops))
  {
    if ops != [] {
      EveryMatchForwardedOnce(groups, ops[..|ops| - 1]);
      NextForwards(Run(Opened(groups), ops[..|ops| - 1]), ops[|ops| - 1]);
    }
  }

  /** The job a match for group gs goes to when the members are found idle at these positions: the
      first one that no earlier match inspected, or nobody when the group is rejected or none of
      those left is idle when inspected. */
  ghost predicate GoesTo(gs: GroupState, idle: Idle, job: JobId) {
    && (job != NOBODY ==> !gs.rejected
                          && exists i :: gs.assignIdx <= i < |gs.ids| && gs.ids[i] == job && i in idle
                                         && forall j | gs.assignIdx <= j < i :: j !in idle)
    && (job == NOBODY <==> gs.rejected || forall j | gs.assignIdx <= j < |gs.ids| :: j !in idle)
  }

  /** A match for an offered group goes to a job found idle when inspected, the first of those that
      no earlier match inspected; and to nobody exactly when all of them are found busy. Any other
      match is forwarded as it came. */
  ghost predicate Delivers(s: State, m: Match, idle: Idle, t: State)
    requires Pointers(s)
  {
    && |t.forwarded| == |s.forwarded| + 1
    && var out := t.forwarded[|s.forwarded|];
       if m.job in s.byRep
       then
         && out.claim == m.claim && s.offered[s.byRep[m.job]].rep == m.job
         && GoesTo(s.offered[s.byRep[m.job]], idle, out.job)
       else out == m
  }

  lemma GrantDelivers(groups: seq<Group>, s: State, m: Match, idle: Idle)
    requires Separate(groups) && RoundInv(groups, s)
    ensures Delivers(s, m, idle, OnGrant(s, m, idle))
  {
    if m.job in s.byRep {
      var gs := s.offered[s.byRep[m.job]];
      var pick := Pick(gs, idle);
      if pick.Some? {
        assert gs.ids[pick.value] != NOBODY;
      }
    }
  }

  lemma RunOneMore(s: State, ops: seq<Op>, op: Op)
    ensures Run(s, ops + [op]) == Next(Run(s, ops), op)
  {
    assert (ops + [op])[..|ops|] == ops;
  }

  /** After any sequence of opcodes. */
  lemma AssignedWasIdle(groups: seq<Group>, ops: seq<Op>, m: Match, idle: Idle)
    requires Separate(groups)
    ensures var s := Run(Opened(groups), ops);
            Pointers(s) && Delivers(s, m, idle, Run(Opened(groups), ops + [Grant(m, idle)]))
  {
    var s := Run(Opened(groups), ops);
    OpenedInv(groups);
    RunKeepsInv(groups, Opened(groups), ops);
    RunOneMore(Opened(groups), ops, Grant(m, idle));
    NextKeepsInv(groups, s, Grant(m, idle));
    GrantDelivers(groups, s, m, idle);
  }

  lemma NextKeepsRejected(groups: seq<Group>, s: State, op: Op, g: nat)
    requires Separate(groups) && RoundInv(groups, s) && Ready(s) && g < |s.offered| && s.offered[g].rejected
    ensures var t := Next(s, op);
            g < |t.offered| && t.offered[g].rejected && Given(t.picks, g) == Given(s.picks, g)
  {
    match op
    case Send(n) => SendKeepsInv(groups, s, n);
    case Grant(m, idle) => GivenMore(s.picks, OnGrant(s, m, idle).picks[|s.picks|], g);
    case Reject(_) =>
  }

  /** Whatever follows, a rejected group yields no further job. */
  lemma {:induction false} RejectedYieldsNothing(groups: seq<Group>, ops: seq<Op>, more: seq<Op>, g: nat)
    requires Separate(groups)
    requires var s := Run(Opened(groups), ops); g < |s.offered| && s.offered[g].rejected
    ensures var s := Run(Opened(groups), ops);
            var t := Run(s, more);
            g < |t.offered| && t.offered[g].rejected && Given(t.picks, g) == Given(s.picks, g)
  {
    if more != [] {
      var s := Run(Opened(groups), ops);
      var before := more[..|more| - 1];
      RejectedYieldsNothing(groups, ops, before, g);
      OpenedInv(groups);
      RunKeepsInv(groups, Opened(groups), ops);
      RunKeepsInv(groups, s, before);
      NextKeepsInv(groups, Run(s, before), more[|more| - 1]);
      NextKeepsRejected(groups, Run(s, before), more[|more| - 1], g);
    }
  }

  // ----- which group a rejection hits -----

  /** Every offered group is found under its representative, and the last one offered is `last`. */
  predicate Indexed(s: State) {
    && (forall g | 0 <= g < |s.offered| :: s.offered[g].rep in s.byRep && s.byRep[s.offered[g].rep] == g)
    && s.last == (if s.offered == [] then None else Some(|s.offered| - 1))
    && s.sent == |s.offered|
  }

  lemma OfferKeepsIndex(groups: seq<Group>, s: State)
    requires RoundInv(groups, s) && Indexed(s) && s.pending != [] && Separate(groups)
    ensures Indexed(Offer(s, s.pending[0]).(pending := s.pending[1..]))
  {
    var n := |s.offered|;
    assert s.pending[0] == groups[n + 0];
    forall g | 0 <= g < n
      ensures s.offered[g].rep != groups[n].ids[0]
    {
      assert s.offered[g].rep == groups[g].ids[0];
    }
  }

  /** How many groups a request for n of them is answered with. */
  function Served(n: int, pending: nat): nat { if n <= 0 then 0 else if n <= pending then n else pending }

  /** A request for n groups is answered with the next n, or with all that are left. */
  lemma {:induction false} SendOffers(groups: seq<Group>, s: State, n: int)
    requires RoundInv(groups, s) && Indexed(s) && Separate(groups)
    ensures Indexed(OnSend(s, n)) && |OnSend(s, n).offered| == |s.offered| + Served(n, |s.pending|)
    decreases n
  {
    if n > 0 && s.pending != [] {
      OfferKeepsInv(groups, s);
      OfferKeepsIndex(groups, s);
      SendOffers(groups, Offer(s, s.pending[0]).(pending := s.pending[1..]), n - 1);
    }
  }

  /** Groups are offered unrejected and with nobody inspected. */
  lemma {:induction false} OfferedFresh(s: State, n: int, g: nat)
    requires Ready(s)
    ensures var t := OnSend(s, n);
            && |s.offered| <= |t.offered| && (g < |s.offered| ==> t.offered[g] == s.offered[g])
            && (|s.offered| <= g < |t.offered| ==> !t.offered[g].rejected && t.offered[g].assignIdx == 0)
    decreases n
  {
    if n > 0 && s.pending != [] {
      OfferedFresh(Offer(s, s.pending[0]).(pending := s.pending[1..]), n - 1, g);
    }
  }

  lemma NextKeepsIndex(groups: seq<Group>, s: State, op: Op)
    requires RoundInv(groups, s) && Indexed(s) && Separate(groups) && Ready(s)
    ensures Indexed(Next(s, op))
  {
    if op.Send? {
      SendOffers(groups, s, op.n);
    }
  }

  lemma {:induction false} RunKeepsIndex(groups: seq<Group>, s: State, ops: seq<Op>)
    requires Separate(groups) && RoundInv(groups, s) && Indexed(s)
    ensures RoundInv(groups, Run(s, ops)) && Indexed(Run(s, ops))
  {
    if ops != [] {
      RunKeepsIndex(groups, s, ops[..|ops| - 1]);
      NextKeepsInv(groups, Run(s, ops[..|ops| - 1]), ops[|ops| - 1]);
      NextKeepsIndex(groups, Run(s, ops[..|ops| - 1]), ops[|ops| - 1]);
    }
  }

  /** The rejection is of group g: it names g's representative, or names nobody who represents an
      offered group, and g is the last one offered. */
  predicate Hits(s: State, op: Op, g: nat)
    requires g < |s.offered|
  {
    && op.Reject?
    && if op.rep.Some? && exists h :: 0 <= h < |s.offered| && s.offered[h].rep == op.rep.value
       then s.offered[g].rep == op.rep.value
       else g == |s.offered| - 1
  }

  lemma RejectHits(groups: seq<Group>, s: State, rep: Option<JobId>, g: nat)
    requires RoundInv(groups, s) && Indexed(s) && g < |s.offered|
    ensures |OnReject(s, rep).offered| == |s.offered|
    ensures OnReject(s, rep).offered[g]
            == if Hits(s, Reject(rep), g) then s.offered[g].(rejected := true) else s.offered[g]
  {
    if rep.Some? && rep.value in s.byRep {
      assert s.offered[s.byRep[rep.value]].rep == rep.value;
    }
  }

  lemma NextHits(groups: seq<Group>, s: State, op: Op, g: nat)
    requires RoundInv(groups, s) && Indexed(s) && Separate(groups) && Ready(s) && g < |s.offered|
    ensures g < |Next(s, op).offered|
    ensures Next(s, op).offered[g].rejected <==> s.offered[g].rejected || Hits(s, op, g)
  {
    match op
    case Send(n) => SendKeepsInv(groups, s, n);
    case Grant(m, idle) => CursorsPassTheInspected(groups, s, m, idle, g);
    case Reject(rep) => RejectHits(groups, s, rep, g);
  }

  /** After any sequence of opcodes, the next one turns a group rejected exactly when it is a rejection
      of that very group. */
  lemma RejectionHits(groups: seq<Group>, ops: seq<Op>, op: Op, g: nat)
    requires Separate(groups)
    requires g < |Run(Opened(groups), ops).offered|
    ensures var s, t := Run(Opened(groups), ops), Run(Opened(groups), ops + [op]);
            g < |t.offered| && (t.offered[g].rejected <==> s.offered[g].rejected || Hits(s, op, g))
  {
    OpenedInv(groups);
    RunKeepsIndex(groups, Opened(groups), ops);
    RunOneMore(Opened(groups), ops, op);
    NextKeepsInv(groups, Run(Opened(groups), ops), op);
    NextHits(groups, Run(Opened(groups), ops), op, g);
  }

  /** Once a group has been rejected, by name or as the last one offered, every later match that names
      its representative goes to nobody, whatever comes between. */
  lemma RejectedGoesToNobody(groups: seq<Group>, ops: seq<Op>, rep: Option<JobId>, more: seq<Op>, claim: string,
                             idle: Idle, g: nat)
    requires Separate(groups)
    requires var s := Run(Opened(groups), ops); g < |s.offered| && Hits(s, Reject(rep), g)
    ensures var u := Run(Run(Opened(groups), ops + [Reject(rep)]), more);
            && g < |u.offered| && Ready(u)
            && Next(u, Grant(Match(u.offered[g].rep, claim), idle)).forwarded == u.forwarded + [Match(NOBODY, claim)]
  {
    var t := Run(Opened(groups), ops + [Reject(rep)]);
    RejectionHits(groups, ops, Reject(rep), g);
    OpenedInv(groups);
    RunKeepsIndex(groups, Opened(groups), ops + [Reject(rep)]);
    RejectedYieldsNothing(groups, ops + [Reject(rep)], more, g);
    RunKeepsIndex(groups, t, more);
    NextKeepsInv(groups, Run(t, more), Grant(Match(Run(t, more).offered[g].rep, claim), idle));
  }

  // ----- cursors and counts -----

  /** A match moves only the cursor of its own group: past the member it goes to, to the end when
      nobody is found idle, and not at all in a rejected group. */
  lemma CursorsPassTheInspected(groups: seq<Group>, s: State, m: Match, idle: Idle, g: nat)
    requires RoundInv(groups, s) && g < |s.offered|
    ensures var t := OnGrant(s, m, idle);
            var gs, hs := s.offered[g], t.offered[g];
            && |t.offered| == |s.offered| && MovesOn(gs, hs) && hs.rejected == gs.rejected
            && if m.job !in s.byRep || s.byRep[m.job] != g || gs.rejected then hs == gs
               else if forall j | gs.assignIdx <= j < |gs.ids| :: j !in idle then hs.assignIdx == |gs.ids|
               else
                 && hs.assignIdx > gs.assignIdx && hs.assignIdx - 1 in idle
                 && (forall j | gs.assignIdx <= j < hs.assignIdx - 1 :: j !in idle)
                 && t.forwarded[|s.forwarded|].job == gs.ids[hs.assignIdx - 1]
  {
  }

  /** The matches that went to a job. */
  function Placed(ms: seq<Match>): nat {
    if ms == [] then 0 else Placed(ms[..|ms| - 1]) + if ms[|ms| - 1].job.cluster >= 0 then 1 else 0
  }

  lemma NextCounts(s: State, op: Op)
    requires Ready(s) && s.matched == Placed(s.forwarded)
    ensures Next(s, op).matched == Placed(Next(s, op).forwarded)
  {
    match op
    case Send(n) => SendCounts(s, n);
    case Grant(m, idle) =>
      var out := OnGrant(s, m, idle).forwarded;
      assert out[..|out| - 1] == s.forwarded;
    case Reject(_) =>
  }

  lemma {:induction false} SendCounts(s: State, n: int)
    requires Ready(s)
    ensures OnSend(s, n).matched == s.matched && OnSend(s, n).forwarded == s.forwarded
    decreases n
  {
    if n > 0 && s.pending != [] {
      SendCounts(Offer(s, s.pending[0]).(pending := s.pending[1..]), n - 1);
    }
  }

  /** The counters a round reports: the groups offered and the matches that went to a job. */
  lemma {:induction false} CountersAreRight(groups: seq<Group>, ops: seq<Op>)
    requires Separate(groups)
    ensures var t := Run(Opened(groups), ops); t.sent == |t.offered| && t.matched == Placed(t.forwarded)
  {
    OpenedInv(groups);
    RunKeepsIndex(groups, Opened(groups), ops);
    if ops != [] {
      var before := ops[..|ops| - 1];
      CountersAreRight(groups, before);
      RunKeepsIndex(groups, Opened(groups), before);
      NextKeepsInv(groups, Run(Opened(groups), before), ops[|ops| - 1]);
      NextCounts(Run(Opened(groups), before), ops[|ops| - 1]);
    }
  }
}
