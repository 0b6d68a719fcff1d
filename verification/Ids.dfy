/** Cluster and proc ids: a durable counter shared by transactions that hand out procs. */
module Ids {
  import opened Common

  /** What becomes of a write of the counter: an error may be reported although it took effect. */
  datatype Put = Stored | FailedUnwritten | FailedWritten

  const NO_CLUSTER := -1

  datatype TxnState = TxnState(anonymous: bool, active: int, nextProc: map<int, nat>)

  function NextIn(t: TxnState, cluster: int): nat { if cluster in t.nextProc then t.nextProc[cluster] else 0 }

  /** The counter recovered when the queue is opened. */
  function Recovered(disk: Option<int>): int { if disk.Some? && disk.value > 1 then disk.value else 1 }

  function DiskAfter(disk: Option<int>, nextId: int, put: Put): Option<int> {
    if put.FailedUnwritten? then disk else Some(nextId + 1)
  }

  class Queue {
    var nextId: int
    var disk: Option<int>

    /** Also what a restart after a crash does: only what is on disk survives. */
    constructor Open(disk: Option<int>)
      ensures this.disk == disk && nextId == Recovered(disk)
      ensures nextId >= 1 && (disk.Some? ==> nextId >= disk.value) && (nextId == 1 || disk == Some(nextId))
    {
      this.disk := disk;
      nextId := 1;
      new;
      if disk.Some? && disk.value > nextId {
        nextId := disk.value;
      }
    }

    method AllocClusterId(put: Put) returns (id: Option<int>)
      modifies this
      ensures id == if put.Stored? then Some(old(nextId)) else None
      ensures nextId == (if put.Stored? then old(nextId) + 1 else old(nextId))
      ensures disk == DiskAfter(old(disk), old(nextId), put)
    {
      var next := nextId;
      nextId := nextId + 1;
      if !put.FailedUnwritten? {
        disk := Some(nextId);
      }
      if !put.Stored? {
        nextId := nextId - 1;
        return None;
      }
      return Some(next);
    }
  }

  class Txn {
    const anonymous: bool
    var active: int
    var nextProc: map<int, nat>

    ghost function View(): TxnState
      reads this
    {
      TxnState(anonymous, active, nextProc)
    }

    constructor Begin(anonymous: bool)
      ensures View() == TxnState(anonymous, NO_CLUSTER, map[])
    {
      this.anonymous, active, nextProc := anonymous, NO_CLUSTER, map[];
    }

    method NewCluster(q: Queue, put: Put) returns (id: Option<int>)
      modifies this, q
      ensures id == if anonymous || !put.Stored? then None else Some(old(q.nextId))
      ensures View() == if id.Some? then Clustered(old(View()), id.value) else old(View())
      ensures q.nextId == (if id.Some? then old(q.nextId) + 1 else old(q.nextId))
      ensures q.disk == if anonymous then old(q.disk) else DiskAfter(old(q.disk), old(q.nextId), put)
    {
      if anonymous {
        return None;
      }
      id := q.AllocClusterId(put);
      if id.Some? {
        active := id.value;
        nextProc := nextProc[id.value := 0];
      }
    }

    method NewProc(cluster: int) returns (proc: Option<nat>)
      modifies this
      ensures proc == if Accepts(old(View()), cluster) then Some(NextIn(old(View()), cluster)) else None
      ensures View() == if proc.Some? then WithProc(old(View()), cluster) else old(View())
    {
      if anonymous {
        return None;
      }
      if cluster != active {
        return None;
      }
      var p := if cluster in nextProc then nextProc[cluster] else 0;
      nextProc := nextProc[cluster := p + 1];
      return Some(p);
    }
  }

  predicate Accepts(t: TxnState, cluster: int) { !t.anonymous && cluster == t.active }

  function Clustered(t: TxnState, id: int): TxnState { t.(active := id, nextProc := t.nextProc[id := 0]) }

  function WithProc(t: TxnState, cluster: int): TxnState {
    t.(nextProc := t.nextProc[cluster := NextIn(t, cluster) + 1])
  }

  // ----- the queue with all its transactions, over restarts -----

  /** A NewProc that succeeded: the transaction that made it and the job id it got. */
  datatype Call = Call(txn: nat, cluster: int, proc: nat)

  /** History: `begun` counts the transactions ever begun, `issued` lists the cluster ids handed
      out and `owner` who got them, `calls` lists the NewProc calls. */
  datatype World = World(nextId: int, disk: Option<int>, txns: map<nat, TxnState>,
                         begun: nat, issued: seq<int>, owner: map<int, nat>, calls: seq<Call>)

  datatype Step =
    | Begin(anonymous: bool)
    | NewCluster(txn: nat, put: Put)
    | NewProc(txn: nat, cluster: int)
    | End(txn: nat)
    | Restart

  const FRESH: World := World(1, None, map[], 0, [], map[], [])

  function OnNewCluster(w: World, txn: nat, put: Put): World
    requires txn in w.txns
  {
    if w.txns[txn].anonymous then w
    else
      var w1 := w.(disk := DiskAfter(w.disk, w.nextId, put));
      if !put.Stored? then w1
      else w1.(nextId := w.nextId + 1,
               txns := w.txns[txn := Clustered(w.txns[txn], w.nextId)],
               issued := w.issued + [w.nextId],
               owner := w.owner[w.nextId := txn])
  }

  function OnNewProc(w: World, txn: nat, cluster: int): World
    requires txn in w.txns
  {
    var t := w.txns[txn];
    if !Accepts(t, cluster) then w
    else w.(txns := w.txns[txn := WithProc(t, cluster)], calls := w.calls + [Call(txn, cluster, NextIn(t, cluster))])
  }

  /** Steps that name a transaction which is not open do nothing. */
  function Next(w: World, step: Step): World {
    match step
    case Begin(anonymous) => w.(txns := w.txns[w.begun := TxnState(anonymous, NO_CLUSTER, map[])], begun := w.begun + 1)
    case NewCluster(txn, put) => if txn in w.txns then OnNewCluster(w, txn, put) else w
    case NewProc(txn, cluster) => if txn in w.txns then OnNewProc(w, txn, cluster) else w
    case End(txn) => w.(txns := w.txns - {txn})
    case Restart => w.(txns := map[], nextId := Recovered(w.disk))
  }

  function Run(steps: seq<Step>): World {
    if steps == [] then FRESH else Next(Run(steps[..|steps| - 1]), steps[|steps| - 1])
  }

  // ----- what holds of every run -----

  predicate Increasing(xs: seq<int>) { forall i, j | 0 <= i < j < |xs| :: xs[i] < xs[j] }

  /** Every id handed out lies below the counter, in memory and on disk. */
  predicate CounterInv(w: World) {
    && 1 <= w.nextId <= Recovered(w.disk)
    && Increasing(w.issued)
    && (forall i | 0 <= i < |w.issued| :: 1 <= w.issued[i] < w.nextId)
    && (forall c | c in w.owner :: c in w.issued) && (forall c | c in w.issued :: c in w.owner)
  }

  /** The calls transaction t made for cluster c. */
  function Made(calls: seq<Call>, t: nat, c: int): nat {
    if calls == [] then 0
    else
      var last := calls[|calls| - 1];
      Made(calls[..|calls| - 1], t, c) + if last.txn == t && last.cluster == c then 1 else 0
  }

  predicate Owns(w: World, t: nat, cluster: int) {
    cluster != NO_CLUSTER ==> cluster in w.owner && w.owner[cluster] == t
  }

  /** A cluster is used only by the transaction that was issued it. */
  predicate OwnerInv(w: World) {
    && (forall t | t in w.txns :: t < w.begun && Owns(w, t, w.txns[t].active))
    && (forall i | 0 <= i < |w.calls| :: w.calls[i].txn < w.begun && Owns(w, w.calls[i].txn, w.calls[i].cluster))
  }

  /** Each call got the number of calls before it for the same cluster in the same transaction. */
  predicate Numbered(calls: seq<Call>) {
    forall i | 0 <= i < |calls| :: calls[i].proc == Made(calls[..i], calls[i].txn, calls[i].cluster)
  }

  lemma CallsStayNumbered(calls: seq<Call>, call: Call)
    requires Numbered(calls) && call.proc == Made(calls, call.txn, call.cluster)
    ensures Numbered(calls + [call])
  {
    var more := calls + [call];
    forall i | 0 <= i < |more|
      ensures more[i].proc == Made(more[..i], more[i].txn, more[i].cluster)
    {
      assert more[..i] == if i < |calls| then calls[..i] else calls;
    }
  }

  ghost predicate ProcInv(w: World) {
    && Numbered(w.calls)
    && (forall t, c | t in w.txns :: NextIn(w.txns[t], c) == Made(w.calls, t, c))
  }

  ghost predicate Inv(w: World) { CounterInv(w) && OwnerInv(w) && ProcInv(w) }

  lemma MadeMore(calls: seq<Call>, call: Call, t: nat, c: int)
    ensures Made(calls + [call], t, c) == Made(calls, t, c) + if call.txn == t && call.cluster == c then 1 else 0
  {
    assert (calls + [call])[..|calls|] == calls;
  }

  lemma {:induction false} MadeNone(calls: seq<Call>, t: nat, c: int)
    requires forall i | 0 <= i < |calls| :: calls[i].txn != t || calls[i].cluster != c
    ensures Made(calls, t, c) == 0
  {
    if calls != [] {
      MadeNone(calls[..|calls| - 1], t, c);
    }
  }

  lemma BeginKeepsInv(w: World, anonymous: bool)
    requires Inv(w)
    ensures Inv(Next(w, Begin(anonymous)))
  {
    var v := Next(w, Begin(anonymous));
    forall t, c | t in v.txns
      ensures NextIn(v.txns[t], c) == Made(v.calls, t, c)
    {
      if t == w.begun {
        MadeNone(w.calls, t, c);
      }
    }
  }

  lemma NewClusterKeepsInv(w: World, txn: nat, put: Put)
    requires Inv(w) && txn in w.txns && !w.txns[txn].anonymous && put.Stored?
    ensures Inv(OnNewCluster(w, txn, put))
  {
    var v := OnNewCluster(w, txn, put);
    assert w.nextId !in w.owner;
    forall t, c | t in v.txns
      ensures NextIn(v.txns[t], c) == Made(v.calls, t, c)
    {
      assert NextIn(w.txns[t], c) == Made(w.calls, t, c);
      if t == txn && c == w.nextId {
        MadeNone(w.calls, t, c);
      }
    }
  }

  lemma NewProcKeepsOwner(w: World, txn: nat, cluster: int)
    requires OwnerInv(w) && txn in w.txns && Accepts(w.txns[txn], cluster)
    ensures OwnerInv(OnNewProc(w, txn, cluster))
  {
  }

  lemma NewProcKeepsProcs(w: World, txn: nat, cluster: int)
    requires ProcInv(w) && txn in w.txns && Accepts(w.txns[txn], cluster)
    ensures ProcInv(OnNewProc(w, txn, cluster))
  {
    var v := OnNewProc(w, txn, cluster);
    var call := Call(txn, cluster, NextIn(w.txns[txn], cluster));
    CallsStayNumbered(w.calls, call);
    forall t, c | t in v.txns
      ensures NextIn(v.txns[t], c) == Made(v.calls, t, c)
    {
      MadeMore(w.calls, call, t, c);
      assert NextIn(w.txns[t], c) == Made(w.calls, t, c);
    }
  }

  lemma NextKeepsInv(w: World, step: Step)
    requires Inv(w)
    ensures Inv(Next(w, step))
  {
    match step
    case Begin(anonymous) => BeginKeepsInv(w, anonymous);
    case NewCluster(txn, put) =>
      if txn in w.txns && !w.txns[txn].anonymous && put.Stored? {
        NewClusterKeepsInv(w, txn, put);
      }
    case NewProc(txn, cluster) =>
      if txn in w.txns && Accepts(w.txns[txn], cluster) {
        NewProcKeepsOwner(w, txn, cluster);
        NewProcKeepsProcs(w, txn, cluster);
      }
    case End(_) =>
    case Restart =>
  }

  lemma {:induction false} RunKeepsInv(steps: seq<Step>)
    ensures Inv(Run(steps))
  {
    if steps != [] {
      RunKeepsInv(steps[..|steps| - 1]);
      NextKeepsInv(Run(steps[..|steps| - 1]), steps[|steps| - 1]);
    }
  }

  /** A NewProc call succeeds exactly for an open transaction that may write, for the cluster it opened
      last, and gets the number of its calls for that cluster so far; any other changes nothing. */
  lemma NewProcOutcome(steps: seq<Step>, txn: nat, cluster: int)
    ensures var w := Run(steps);
            var v := Next(w, NewProc(txn, cluster));
            if txn in w.txns && !w.txns[txn].anonymous && w.txns[txn].active == cluster
            then v.calls == w.calls + [Call(txn, cluster, Made(w.calls, txn, cluster))]
                 && v.nextId == w.nextId && v.disk == w.disk && v.issued == w.issued
            else v == w
  {
    RunKeepsInv(steps);
  }

  /** A NewCluster call hands out the counter exactly for an open transaction that may write and when
      the advanced counter was stored; the cluster is then that transaction's active one. */
  lemma NewClusterOutcome(steps: seq<Step>, txn: nat, put: Put)
    ensures var w := Run(steps);
            var v := Next(w, NewCluster(txn, put));
            && v.calls == w.calls
            && if txn in w.txns && !w.txns[txn].anonymous && put.Stored?
               then
                 && v.issued == w.issued + [w.nextId] && v.nextId == w.nextId + 1 && v.disk == Some(w.nextId + 1)
                 && txn in v.txns && v.txns[txn].active == w.nextId && w.nextId in v.owner && v.owner[w.nextId] == txn
               else v.issued == w.issued && v.nextId == w.nextId && v.txns == w.txns && v.owner == w.owner
  {
  }

  /** After a restart the counter is what was last stored, no transaction is left open, and no id is
      forgotten. */
  lemma RestartOutcome(steps: seq<Step>)
    ensures var w := Run(steps);
            var v := Next(w, Restart);
            && v.nextId >= w.nextId && (v.nextId == 1 || w.disk == Some(v.nextId)) && v.disk == w.disk
            && v.txns == map[] && v.issued == w.issued && v.calls == w.calls
  {
    RunKeepsInv(steps);
  }

  /** Whatever fails or crashes, cluster ids only go up, and the procs of a cluster are numbered
      without a gap by one transaction. */
  lemma IdsAreOrderly(steps: seq<Step>)
    ensures var w := Run(steps);
            && Increasing(w.issued)
            && Numbered(w.calls)
            && (forall i, j | 0 <= i < j < |w.calls| && w.calls[i].cluster == w.calls[j].cluster != NO_CLUSTER ::
                  w.calls[i].txn == w.calls[j].txn && w.calls[i].cluster in w.issued)
  {
    RunKeepsInv(steps);
  }

  lemma {:induction false} MadeGrows(calls: seq<Call>, i: nat, j: nat)
    requires i < j <= |calls|
    ensures Made(calls[..i], calls[i].txn, calls[i].cluster) < Made(calls[..j], calls[i].txn, calls[i].cluster)
    decreases j
  {
    assert calls[..j][..j - 1] == calls[..j - 1];
    if i < j - 1 {
      MadeGrows(calls, i, j - 1);
    }
  }

  /** Two calls get the same id only when both are for no cluster, in different transactions. */
  lemma SameIdMeansNoCluster(w: World, i: nat, j: nat)
    requires Inv(w) && i < j < |w.calls|
    requires w.calls[i].cluster == w.calls[j].cluster && w.calls[i].proc == w.calls[j].proc
    ensures w.calls[i].cluster == NO_CLUSTER && w.calls[i].txn != w.calls[j].txn
  {
    MadeGrows(w.calls, i, j);
  }

  /** A transaction that made a call for a cluster made one that got proc 0. */
  lemma {:induction false} FirstCall(w: World, i: nat) returns (f: nat)
    requires Inv(w) && i < |w.calls|
    ensures f < |w.calls| && w.calls[f] == Call(w.calls[i].txn, w.calls[i].cluster, 0)
    decreases i
  {
    var t, c := w.calls[i].txn, w.calls[i].cluster;
    if w.calls[i].proc == 0 {
      f := i;
    } else {
      var j := SomeCall(w.calls[..i], t, c);
      f := FirstCall(w, j);
    }
  }

  lemma {:induction false} SomeCall(calls: seq<Call>, t: nat, c: int) returns (j: nat)
    requires Made(calls, t, c) > 0
    ensures j < |calls| && calls[j].txn == t && calls[j].cluster == c
  {
    var last := |calls| - 1;
    if calls[last].txn == t && calls[last].cluster == c {
      j := last;
    } else {
      j := SomeCall(calls[..last], t, c);
    }
  }

  predicate AllDifferent(calls: seq<Call>) {
    forall i, j | 0 <= i < j < |calls| :: calls[i].cluster != calls[j].cluster || calls[i].proc != calls[j].proc
  }

  /** NewProc before any NewCluster was asked for in at most one transaction. */
  predicate OneWithoutCluster(calls: seq<Call>) {
    forall i, j | 0 <= i < |calls| && 0 <= j < |calls| && calls[i].cluster == calls[j].cluster == NO_CLUSTER ::
      calls[i].txn == calls[j].txn
  }

  /** No two NewProc calls ever get the same id, if and only if no two transactions call it for
      cluster -1, which passes the check of the active cluster before any NewCluster. */
  lemma JobIdsAreUnique(steps: seq<Step>)
    ensures AllDifferent(Run(steps).calls) <==> OneWithoutCluster(Run(steps).calls)
  {
    var w := Run(steps);
    RunKeepsInv(steps);
    if OneWithoutCluster(w.calls) {
      forall i, j | 0 <= i < j < |w.calls|
        ensures w.calls[i].cluster != w.calls[j].cluster || w.calls[i].proc != w.calls[j].proc
      {
        if w.calls[i].cluster == w.calls[j].cluster && w.calls[i].proc == w.calls[j].proc {
          SameIdMeansNoCluster(w, i, j);
        }
      }
    } else {
      var i, j :| 0 <= i < |w.calls| && 0 <= j < |w.calls| && w.calls[i].cluster == w.calls[j].cluster == NO_CLUSTER
                  && w.calls[i].txn != w.calls[j].txn;
      var f := FirstCall(w, i);
      var g := FirstCall(w, j);
      assert f < g || g < f;
    }
  }

  lemma RunOn(steps: seq<Step>, step: Step)
    ensures Run(steps + [step]) == Next(Run(steps), step)
  {
    assert (steps + [step])[..|steps|] == steps;
  }

  /** Two transactions that never open a cluster do get the same id. */
  lemma WithoutClusterIdsCollide()
    ensures var steps := [Begin(false)] + [NewProc(0, NO_CLUSTER)] + [Begin(false)] + [NewProc(1, NO_CLUSTER)];
            !AllDifferent(Run(steps).calls)
  {
    var one := [Begin(false)];
    assert one == [] + [Begin(false)];
    RunOn([], Begin(false));
    RunOn(one, NewProc(0, NO_CLUSTER));
    RunOn(one + [NewProc(0, NO_CLUSTER)], Begin(false));
    RunOn(one + [NewProc(0, NO_CLUSTER)] + [Begin(false)], NewProc(1, NO_CLUSTER));
    var calls := Run(one + [NewProc(0, NO_CLUSTER)] + [Begin(false)] + [NewProc(1, NO_CLUSTER)]).calls;
    assert calls == [Call(0, NO_CLUSTER, 0), Call(1, NO_CLUSTER, 0)];
    assert calls[0].cluster == calls[1].cluster && calls[0].proc == calls[1].proc;
  }
}
