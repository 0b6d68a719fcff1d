/** Exactly-once materialization, over any mix of visits, failures, crashes and job changes. */
module FactoryProofs {
  import opened Common
  import opened Jobs
  import opened Factory

  /** The procs 0, 1, 2, ... in that order, each once. */
  predicate Counting(xs: seq<nat>) { forall i | 0 <= i < |xs| :: xs[i] == i }

  predicate Inv(d: Digest, st: Store)
    requires d.queueNum >= 1
  {
    && Counting(st.created)
    && (st.ad.Some? ==>
          && st.ad.value.nextProc == |st.created|
          && st.ad.value.nextRow == RowIndex(d, st.ad.value.nextProc)
          && st.ad.value.nextProc <= Limit(d, st.ad.value)
          && forall p | p in st.procs :: p < st.ad.value.nextProc)
  }

  lemma {:induction false} ChangesAddNoProc(procs: map<nat, int>, changes: seq<Change>)
    ensures AllChanged(procs, changes).Keys <= procs.Keys
  {
    if changes != [] {
      ChangesAddNoProc(procs, changes[..|changes| - 1]);
    }
  }

  lemma {:induction false} TopUpKeepsInv(st: Store, d: Digest, limit: nat, maxIdle: int, next: nat, idle: int,
                                         turns: nat -> Turn, i: nat)
    requires d.queueNum >= 1 && Inv(d, st)
    requires st.ad.Some? ==> next == st.ad.value.nextProc && limit == Limit(d, st.ad.value)
    ensures Inv(d, TopUp(st, d, limit, maxIdle, next, idle, turns, i))
    decreases limit - next
  {
    if next < limit && !(maxIdle >= 0 && idle >= maxIdle) {
      var turn := turns(i);
      ChangesAddNoProc(st.procs, turn.others);
      var st1 := st.(procs := AllChanged(st.procs, turn.others));
      if turn.expands && st1.ad.Some? {
        var st2 := Materialized(st1, next, turn.status, next + 1, RowIndex(d, next + 1),
                                if next + 1 >= limit then PAUSE_NO_MORE_ITEMS else 0);
        TopUpKeepsInv(st2, d, limit, maxIdle, next + 1, idle + 1, turns, i + 1);
      }
    }
  }

  datatype Step = Visit(loads: bool, turns: nat -> Turn) | Others(changes: seq<Change>)

  function Next(d: Digest, st: Store, step: Step): Store
    requires d.queueNum >= 1
  {
    match step
    case Visit(loads, turns) => Visited(st, d, loads, turns)
    case Others(changes) => st.(procs := AllChanged(st.procs, changes))
  }

  function Run(d: Digest, st: Store, steps: seq<Step>): Store
    requires d.queueNum >= 1
  {
    if steps == [] then st else Next(d, Run(d, st, steps[..|steps| - 1]), steps[|steps| - 1])
  }

  /** A factory as it is submitted, with any limits. */
  function Submitted(limit: int, maxIdle: int): Store { Store(Some(Info(limit, maxIdle, 0, 0, 0)), map[], []) }

  lemma NextKeepsInv(d: Digest, st: Store, step: Step)
    requires d.queueNum >= 1 && Inv(d, st)
    ensures Inv(d, Next(d, st, step))
  {
    match step
    case Visit(loads, turns) =>
      if st.ad.Some? {
        var info := st.ad.value;
        TopUpKeepsInv(st, d, Limit(d, info), info.maxIdle, info.nextProc, |IdleProcs(st.procs)|, turns, 0);
      }
    case Others(changes) => ChangesAddNoProc(st.procs, changes);
  }

  lemma {:induction false} RunKeepsInv(d: Digest, limit: int, maxIdle: int, steps: seq<Step>)
    requires d.queueNum >= 1
    ensures Inv(d, Run(d, Submitted(limit, maxIdle), steps))
  {
    if steps == [] {
      assert Total(d) >= 1;
    } else {
      RunKeepsInv(d, limit, maxIdle, steps[..|steps| - 1]);
      NextKeepsInv(d, Run(d, Submitted(limit, maxIdle), steps[..|steps| - 1]), steps[|steps| - 1]);
    }
  }

  lemma {:induction false} RunKeepsLimit(d: Digest, limit: int, maxIdle: int, steps: seq<Step>)
    requires d.queueNum >= 1
    ensures var st := Run(d, Submitted(limit, maxIdle), steps); st.ad.Some? ==> st.ad.value.limit == limit
  {
    if steps != [] {
      var n := |steps| - 1;
      RunKeepsLimit(d, limit, maxIdle, steps[..n]);
      var st := Run(d, Submitted(limit, maxIdle), steps[..n]);
      if st.ad.Some? && steps[n].Visit? {
        var info := st.ad.value;
        TopUpKeepsMaximum(st, d, Limit(d, info), info.maxIdle, info.nextProc, |IdleProcs(st.procs)|, steps[n].turns, 0);
      }
    }
  }

  /** In every reachable state the procs ever created are exactly 0 .. NextProcId-1, each created
      once; NextRow is NextProcId divided by the repeat count; NextProcId is within the product of
      rows and repeats and within the limit, if there is one; and no live proc is beyond it. */
  lemma CreatedExactlyOnce(d: Digest, limit: int, maxIdle: int, steps: seq<Step>)
    requires d.queueNum >= 1
    ensures var st := Run(d, Submitted(limit, maxIdle), steps);
            && Counting(st.created)
            && (st.ad.Some? ==>
                  var next := st.ad.value.nextProc;
                  && next == |st.created| && st.ad.value.nextRow == next / d.queueNum
                  && next <= d.queueNum * (if d.rows == 0 then 1 else d.rows) && (limit > 0 ==> next <= limit)
                  && forall p | p in st.procs :: p < next)
  {
    RunKeepsInv(d, limit, maxIdle, steps);
    RunKeepsLimit(d, limit, maxIdle, steps);
  }

  /** A factory with these limits can be in state st. */
  ghost predicate Reachable(d: Digest, limit: int, maxIdle: int, st: Store)
    requires d.queueNum >= 1
  {
    exists steps :: Run(d, Submitted(limit, maxIdle), steps) == st
  }

  lemma ReachableInv(d: Digest, limit: int, maxIdle: int, st: Store)
    requires d.queueNum >= 1 && Reachable(d, limit, maxIdle, st)
    ensures Inv(d, st)
  {
    var steps :| Run(d, Submitted(limit, maxIdle), steps) == st;
    RunKeepsInv(d, limit, maxIdle, steps);
  }

  // ----- rows and steps -----

  function StepOf(d: Digest, proc: nat): nat
    requires d.queueNum >= 1
  {
    proc % d.queueNum
  }

  /** The pairs of row and step and the procs below the total determine one another. */
  lemma PairOf(d: Digest, row: nat, step: nat)
    requires d.queueNum >= 1 && row < Rows(d) && step < d.queueNum
    ensures var p := row * d.queueNum + step;
            p < Total(d) && RowIndex(d, p) == row && StepOf(d, p) == step
  {
    var p := row * d.queueNum + step;
    assert (row + 1) * d.queueNum <= Rows(d) * d.queueNum;
    Quotient(p, d.queueNum, row, step);
  }

  lemma {:induction false} Monotone(a: nat, b: nat, q: nat)
    ensures a < b ==> a * q + q <= b * q
  {
    if a < b {
      Monotone(a, b - 1, q);
      assert b * q == (b - 1) * q + q;
    }
  }

  lemma Quotient(p: nat, q: nat, row: nat, step: nat)
    requires q >= 1 && step < q && p == row * q + step
    ensures p / q == row && p % q == step
  {
    var a, b := p / q, p % q;
    assert p == a * q + b && 0 <= b < q;
    Monotone(a, row, q);
    Monotone(row, a, q);
  }

  /** When the limit is the whole product and the factory has reached it, every pair of row and
      step has been produced, by one proc. */
  lemma FinishedFactoryIsComplete(d: Digest, limit: int, maxIdle: int, st: Store, row: nat, step: nat)
    requires d.queueNum >= 1 && row < Rows(d) && step < d.queueNum && Reachable(d, limit, maxIdle, st)
    requires st.ad.Some? && Limit(d, st.ad.value) == Total(d) && st.ad.value.nextProc >= Total(d)
    ensures var p := row * d.queueNum + step;
            && |st.created| == Total(d) && p < |st.created|
            && forall i | 0 <= i < |st.created| ::
                 (RowIndex(d, st.created[i]) == row && StepOf(d, st.created[i]) == step) <==> i == p
  {
    ReachableInv(d, limit, maxIdle, st);
    PairOf(d, row, step);
    forall i | 0 <= i < |st.created| && RowIndex(d, st.created[i]) == row && StepOf(d, st.created[i]) == step
      ensures i == row * d.queueNum + step
    {
      assert i == (i / d.queueNum) * d.queueNum + i % d.queueNum;
    }
  }

  // ----- how many -----

  predicate Smooth(turn: Turn) { turn.others == [] && turn.expands && turn.status == IDLE && turn.commit.Committed? }

  /** How many procs fit under the limit and the idle maximum. */
  function Quota(left: int, maxIdle: int, idle: int): int {
    if maxIdle < 0 then left
    else if maxIdle <= idle then 0
    else if left <= maxIdle - idle then left else maxIdle - idle
  }

  lemma {:induction false} TopUpCreates(st: Store, d: Digest, limit: nat, maxIdle: int, next: nat, idle: nat,
                                        turns: nat -> Turn, i: nat)
    requires d.queueNum >= 1 && st.ad.Some? && next <= limit
    requires forall j: nat :: Smooth(turns(j))
    requires idle == |IdleProcs(st.procs)| && forall p | p in st.procs :: p < next
    ensures var t := TopUp(st, d, limit, maxIdle, next, idle, turns, i);
            var n := Quota(limit - next, maxIdle, idle);
            && |t.created| == |st.created| + n && |IdleProcs(t.procs)| == idle + n && t.ad.Some?
            && (n == limit - next ==> t.ad.value.paused == PAUSE_NO_MORE_ITEMS)
    decreases limit - next
  {
    if next < limit && !(maxIdle >= 0 && idle >= maxIdle) {
      var turn := turns(i);
      assert Smooth(turn);
      var st2 := Materialized(st, next, turn.status, next + 1, RowIndex(d, next + 1),
                              if next + 1 >= limit then PAUSE_NO_MORE_ITEMS else 0);
      assert IdleProcs(st2.procs) == IdleProcs(st.procs) + {next};
      TopUpCreates(st2, d, limit, maxIdle, next + 1, idle + 1, turns, i + 1);
    }
  }

  /** An undisturbed visit to a reachable, unpaused factory creates exactly as many procs as the
      limit and the idle maximum leave room for, all of them idle. */
  lemma VisitCreatesTheQuota(d: Digest, limit: int, maxIdle: int, st: Store, turns: nat -> Turn)
    requires d.queueNum >= 1 && Reachable(d, limit, maxIdle, st) && forall j: nat :: Smooth(turns(j))
    requires st.ad.Some? && st.ad.value.paused == 0
    ensures var t := Visited(st, d, true, turns);
            var n := Quota(Limit(d, st.ad.value) - st.ad.value.nextProc, st.ad.value.maxIdle, |IdleProcs(st.procs)|);
            && |t.created| == |st.created| + n && |IdleProcs(t.procs)| == |IdleProcs(st.procs)| + n
  {
    ReachableInv(d, limit, maxIdle, st);
    var info := st.ad.value;
    TopUpCreates(st, d, Limit(d, info), info.maxIdle, info.nextProc, |IdleProcs(st.procs)|, turns, 0);
  }

  // ----- the idle maximum -----

  predicate LeavesIdle(changes: seq<Change>) {
    forall i | 0 <= i < |changes| :: changes[i].SetStatus? ==> changes[i].status != IDLE
  }

  ghost predicate OnlyLeavesIdle(step: Step) {
    match step
    case Visit(_, turns) => forall i: nat :: LeavesIdle(turns(i).others)
    case Others(changes) => LeavesIdle(changes)
  }

  lemma {:induction false} FewerIdle(procs: map<nat, int>, changes: seq<Change>)
    requires LeavesIdle(changes)
    ensures IdleProcs(AllChanged(procs, changes)) <= IdleProcs(procs)
  {
    if changes != [] {
      var n := |changes| - 1;
      FewerIdle(procs, changes[..n]);
      assert changes[n].SetStatus? ==> changes[n].status != IDLE;
    }
  }

  lemma SmallerSet(a: set<nat>, b: set<nat>)
    requires a <= b
    ensures |a| <= |b|
  {
    if a != b {
      assert b == a + (b - a);
      assert |b| == |a| + |b - a|;
    }
  }

  lemma OneMoreIdle(procs: map<nat, int>, p: nat, status: int)
    ensures |IdleProcs(procs[p := status])| <= |IdleProcs(procs)| + 1
  {
    SmallerSet(IdleProcs(procs[p := status]), IdleProcs(procs) + {p});
    assert |IdleProcs(procs) + {p}| <= |IdleProcs(procs)| + 1;
  }

  lemma {:induction false} TopUpKeepsIdle(st: Store, d: Digest, limit: nat, maxIdle: int, next: nat, idle: int,
                                          turns: nat -> Turn, i: nat)
    requires d.queueNum >= 1 && maxIdle >= 0 && forall j: nat :: LeavesIdle(turns(j).others)
    requires |IdleProcs(st.procs)| <= idle <= maxIdle
    ensures |IdleProcs(TopUp(st, d, limit, maxIdle, next, idle, turns, i).procs)| <= maxIdle
    decreases limit - next
  {
    if next < limit && idle < maxIdle {
      var turn := turns(i);
      assert LeavesIdle(turn.others);
      FewerIdle(st.procs, turn.others);
      var st1 := st.(procs := AllChanged(st.procs, turn.others));
      SmallerSet(IdleProcs(st1.procs), IdleProcs(st.procs));
      if turn.expands && st1.ad.Some? {
        OneMoreIdle(st1.procs, next, turn.status);
        var st2 := Materialized(st1, next, turn.status, next + 1, RowIndex(d, next + 1),
                                if next + 1 >= limit then PAUSE_NO_MORE_ITEMS else 0);
        TopUpKeepsIdle(st2, d, limit, maxIdle, next + 1, idle + 1, turns, i + 1);
      }
    }
  }

  lemma {:induction false} TopUpKeepsMaximum(st: Store, d: Digest, limit: nat, maxIdle: int, next: nat, idle: int,
                                             turns: nat -> Turn, i: nat)
    requires d.queueNum >= 1 && st.ad.Some?
    ensures var t := TopUp(st, d, limit, maxIdle, next, idle, turns, i);
            t.ad.Some? && t.ad.value.maxIdle == st.ad.value.maxIdle && t.ad.value.limit == st.ad.value.limit
    decreases limit - next
  {
    if next < limit && !(maxIdle >= 0 && idle >= maxIdle) {
      var turn := turns(i);
      var st1 := st.(procs := AllChanged(st.procs, turn.others));
      var st2 := Materialized(st1, next, turn.status, next + 1, RowIndex(d, next + 1),
                              if next + 1 >= limit then PAUSE_NO_MORE_ITEMS else 0);
      TopUpKeepsMaximum(st2, d, limit, maxIdle, next + 1, idle + 1, turns, i + 1);
    }
  }

  predicate WithinMaximum(maxIdle: int, st: Store) {
    |set p | p in st.procs && st.procs[p] == 1| <= maxIdle && (st.ad.Some? ==> st.ad.value.maxIdle == maxIdle)
  }

  lemma IdleIsStatusOne(procs: map<nat, int>)
    ensures (set p | p in procs && procs[p] == 1) == IdleProcs(procs)
  {
  }

  lemma NextKeepsMaximum(d: Digest, maxIdle: int, st: Store, step: Step)
    requires d.queueNum >= 1 && maxIdle >= 0 && WithinMaximum(maxIdle, st) && OnlyLeavesIdle(step)
    ensures WithinMaximum(maxIdle, Next(d, st, step))
  {
    IdleIsStatusOne(st.procs);
    IdleIsStatusOne(Next(d, st, step).procs);
    match step
    case Visit(loads, turns) =>
      if st.ad.Some? {
        var info := st.ad.value;
        TopUpKeepsIdle(st, d, Limit(d, info), maxIdle, info.nextProc, |IdleProcs(st.procs)|, turns, 0);
        TopUpKeepsMaximum(st, d, Limit(d, info), maxIdle, info.nextProc, |IdleProcs(st.procs)|, turns, 0);
      }
    case Others(changes) =>
      FewerIdle(st.procs, changes);
      SmallerSet(IdleProcs(AllChanged(st.procs, changes)), IdleProcs(st.procs));
  }

  /** As long as jobs only leave Idle, even in the middle of a visit, no more than the maximum are
      ever idle. */
  lemma {:induction false} IdleStaysBounded(d: Digest, limit: int, maxIdle: int, steps: seq<Step>)
    requires d.queueNum >= 1 && maxIdle >= 0 && forall i | 0 <= i < |steps| :: OnlyLeavesIdle(steps[i])
    ensures WithinMaximum(maxIdle, Run(d, Submitted(limit, maxIdle), steps))
  {
    if steps == [] {
      IdleIsStatusOne(map[]);
      assert IdleProcs(map[]) == {};
    } else {
      IdleStaysBounded(d, limit, maxIdle, steps[..|steps| - 1]);
      NextKeepsMaximum(d, maxIdle, Run(d, Submitted(limit, maxIdle), steps[..|steps| - 1]), steps[|steps| - 1]);
    }
  }

  // ----- what a visit does -----

  /** The turn brings a proc. */
  predicate Works(turn: Turn) { turn.expands && !turn.commit.Refused? && !turn.commit.CrashedBefore? }

  /** The procs that topping up from `next` brings. */
  function Brought(limit: nat, maxIdle: int, next: nat, idle: int, turns: nat -> Turn, i: nat): nat
    decreases limit - next
  {
    if next >= limit || (maxIdle >= 0 && idle >= maxIdle) || !Works(turns(i)) then 0
    else if turns(i).commit.CrashedAfter? then 1
    else 1 + Brought(limit, maxIdle, next + 1, idle + 1, turns, i + 1)
  }

  /** The turns from i on that count are all but perhaps the last committed. */
  predicate AllWork(turns: nat -> Turn, i: nat, n: nat) {
    forall j | i <= j < i + n :: Works(turns(j)) && (j < i + n - 1 ==> turns(j).commit.Committed?)
  }

  /** Why topping up ended after n procs, and whether the factory is then marked done. */
  predicate EndedBecause(limit: nat, maxIdle: int, next: nat, idle: int, turns: nat -> Turn, i: nat, n: nat,
                         done: bool, was: bool) {
    if n > 0 && turns(i + n - 1).commit.CrashedAfter? then done == (was || next + n >= limit)
    else if next + n >= limit then done
    else if maxIdle >= 0 && idle + n >= maxIdle then done == was
    else !Works(turns(i + n)) && done == (was || !turns(i + n).expands)
  }

  /** The store after the first turn, when it brings a proc. */
  function FirstTurn(st: Store, d: Digest, limit: nat, next: nat, turn: Turn): Store
    requires d.queueNum >= 1 && st.ad.Some?
  {
    Materialized(st.(procs := AllChanged(st.procs, turn.others)), next, turn.status, next + 1, RowIndex(d, next + 1),
                 if next + 1 >= limit then PAUSE_NO_MORE_ITEMS else 0)
  }

  lemma {:induction false} TopUpCreated(st: Store, d: Digest, limit: nat, maxIdle: int, next: nat, idle: int,
                                        turns: nat -> Turn, i: nat)
    requires d.queueNum >= 1 && st.ad.Some?
    ensures var t := TopUp(st, d, limit, maxIdle, next, idle, turns, i);
            var n := Brought(limit, maxIdle, next, idle, turns, i);
            && |t.created| == |st.created| + n && st.created <= t.created && AllWork(turns, i, n)
            && forall p | |st.created| <= p < |t.created| :: t.created[p] == next + (p - |st.created|)
    decreases limit - next
  {
    if next < limit && !(maxIdle >= 0 && idle >= maxIdle) && Works(turns(i)) && !turns(i).commit.CrashedAfter? {
      TopUpCreated(FirstTurn(st, d, limit, next, turns(i)), d, limit, maxIdle, next + 1, idle + 1, turns, i + 1);
    }
  }

  lemma {:induction false} TopUpAdvances(st: Store, d: Digest, limit: nat, maxIdle: int, next: nat, idle: int,
                                         turns: nat -> Turn, i: nat)
    requires d.queueNum >= 1 && st.ad.Some?
    ensures var t := TopUp(st, d, limit, maxIdle, next, idle, turns, i);
            var n := Brought(limit, maxIdle, next, idle, turns, i);
            && t.ad.Some?
            && (n > 0 ==> t.ad.value.nextProc == next + n && t.ad.value.nextRow == (next + n) / d.queueNum)
            && (n == 0 ==> t.ad.value.nextProc == st.ad.value.nextProc && t.ad.value.nextRow == st.ad.value.nextRow)
    decreases limit - next
  {
    if next < limit && !(maxIdle >= 0 && idle >= maxIdle) && Works(turns(i)) && !turns(i).commit.CrashedAfter? {
      TopUpAdvances(FirstTurn(st, d, limit, next, turns(i)), d, limit, maxIdle, next + 1, idle + 1, turns, i + 1);
    }
  }

  lemma {:induction false} TopUpEnds(st: Store, d: Digest, limit: nat, maxIdle: int, next: nat, idle: int,
                                     turns: nat -> Turn, i: nat)
    requires d.queueNum >= 1 && st.ad.Some?
    ensures var t := TopUp(st, d, limit, maxIdle, next, idle, turns, i);
            var n := Brought(limit, maxIdle, next, idle, turns, i);
            && t.ad.Some? && (t.ad.value.paused == st.ad.value.paused || t.ad.value.paused == 3)
            && EndedBecause(limit, maxIdle, next, idle, turns, i, n, t.ad.value.paused == 3, st.ad.value.paused == 3)
    decreases limit - next
  {
    if next < limit && !(maxIdle >= 0 && idle >= maxIdle) && Works(turns(i)) && !turns(i).commit.CrashedAfter? {
      TopUpEnds(FirstTurn(st, d, limit, next, turns(i)), d, limit, maxIdle, next + 1, idle + 1, turns, i + 1);
    }
  }

  /** A visit that tops up creates the next n procs in order, one turn each, all of them committed but
      perhaps the last, and advances the cluster ad with them; it ends because of a crash, a limit, the
      idle maximum, a failed write or a failed expansion, and only the limit and the failed expansion
      mark the factory done. */
  lemma VisitOutcome(d: Digest, st: Store, turns: nat -> Turn) returns (n: nat)
    requires d.queueNum >= 1 && st.ad.Some? && st.ad.value.paused == 0
    ensures var t := Visited(st, d, true, turns);
            var info := st.ad.value;
            var product := d.queueNum * (if d.rows == 0 then 1 else d.rows);
            var limit := if info.limit <= 0 || product <= info.limit then product else info.limit;
            && t.ad.Some? && |t.created| == |st.created| + n && st.created <= t.created && AllWork(turns, 0, n)
            && (forall p | |st.created| <= p < |t.created| :: t.created[p] == info.nextProc + (p - |st.created|))
            && (n > 0 ==> t.ad.value.nextProc == info.nextProc + n
                          && t.ad.value.nextRow == (info.nextProc + n) / d.queueNum)
            && (n == 0 ==> t.ad.value.nextProc == info.nextProc && t.ad.value.nextRow == info.nextRow)
            && EndedBecause(limit, info.maxIdle, info.nextProc, |IdleProcs(st.procs)|, turns, 0, n,
                            t.ad.value.paused == 3, false)
  {
    var info := st.ad.value;
    var limit := Limit(d, info);
    n := Brought(limit, info.maxIdle, info.nextProc, |IdleProcs(st.procs)|, turns, 0);
    TopUpCreated(st, d, limit, info.maxIdle, info.nextProc, |IdleProcs(st.procs)|, turns, 0);
    TopUpAdvances(st, d, limit, info.maxIdle, info.nextProc, |IdleProcs(st.procs)|, turns, 0);
    TopUpEnds(st, d, limit, info.maxIdle, info.nextProc, |IdleProcs(st.procs)|, turns, 0);
  }

  /** A visit to a factory that is done or paused reclaims its cluster ad exactly when no proc is left,
      and changes nothing else. */
  lemma PausedVisit(d: Digest, st: Store, loads: bool, turns: nat -> Turn)
    requires d.queueNum >= 1 && st.ad.Some? && st.ad.value.paused != 0
    ensures var t := Visited(st, d, loads, turns);
            && t.procs == st.procs && t.created == st.created
            && (t.ad == None <==> forall p :: p !in st.procs) && (t.ad == None || t.ad == st.ad)
  {
    if forall p :: p !in st.procs {
      assert st.procs == map[];
    }
  }

  /** No other visit reclaims the cluster ad, and one that cannot read the digest marks the factory done
      and creates nothing. */
  lemma OtherVisits(d: Digest, st: Store, loads: bool, turns: nat -> Turn)
    requires d.queueNum >= 1 && (st.ad.Some? ==> st.ad.value.paused == 0)
    ensures var t := Visited(st, d, loads, turns);
            && (t.ad.Some? <==> st.ad.Some?)
            && (st.ad.None? ==> t == st)
            && (st.ad.Some? && !loads ==>
                  t.ad == Some(st.ad.value.(paused := 3)) && t.procs == st.procs && t.created == st.created)
  {
    if st.ad.Some? && loads {
      var info := st.ad.value;
      TopUpEnds(st, d, Limit(d, info), info.maxIdle, info.nextProc, |IdleProcs(st.procs)|, turns, 0);
    }
  }

  /** Of n procs in all, no more fit: the product, the limit or the idle maximum is reached. */
  predicate Full(d: Digest, info: Info, n: nat, idle: nat) {
    || n == d.queueNum * (if d.rows == 0 then 1 else d.rows)
    || (info.limit > 0 && n == info.limit)
    || (info.maxIdle >= 0 && idle >= info.maxIdle)
  }

  /** Of n procs in all, none is too many. */
  predicate Fits(d: Digest, info: Info, n: nat) {
    n <= d.queueNum * (if d.rows == 0 then 1 else d.rows) && (info.limit > 0 ==> n <= info.limit)
  }

  /** An undisturbed visit to a reachable, unpaused factory goes on until the product of rows and
      repeats, the limit or the idle maximum is reached, and never past one of them. */
  lemma VisitFillsUp(d: Digest, limit: int, maxIdle: int, st: Store, turns: nat -> Turn)
    requires d.queueNum >= 1 && Reachable(d, limit, maxIdle, st) && forall j: nat :: Smooth(turns(j))
    requires st.ad.Some? && st.ad.value.paused == 0
    ensures var t := Visited(st, d, true, turns);
            var was, idle := |set p | p in st.procs && st.procs[p] == 1|, |set p | p in t.procs && t.procs[p] == 1|;
            && Fits(d, st.ad.value, |t.created|) && Full(d, st.ad.value, |t.created|, idle)
            && idle - was == |t.created| - |st.created|
            && (st.ad.value.maxIdle >= 0 ==> idle <= was || idle <= st.ad.value.maxIdle)
  {
    VisitCreatesTheQuota(d, limit, maxIdle, st, turns);
    ReachableInv(d, limit, maxIdle, st);
    var t := Visited(st, d, true, turns);
    assert (set p | p in st.procs && st.procs[p] == 1) == IdleProcs(st.procs);
    assert (set p | p in t.procs && t.procs[p] == 1) == IdleProcs(t.procs);
  }
}
