/**
 Late materialization of one factory cluster: the engine creates the cluster's procs a few
 at a time from a submit digest. The store holds the cluster ad and the live procs; a proc
 and the advanced cluster ad are written in one atomic batch.
 */
module Factory {
  import opened Common
  import opened Jobs

  const PAUSE_NO_MORE_ITEMS := 3
  /** The bookkeeping attributes of the cluster ad; a negative maximum means none. */
  datatype Info = Info(limit: int, maxIdle: int, nextProc: nat, nextRow: int, paused: int)

  /** The repeat count of the digest's queue statement and the number of item rows. */
  datatype Digest = Digest(queueNum: nat, rows: nat)

  /** `created` is history: every proc ever created, in order. */
  datatype Store = Store(ad: Option<Info>, procs: map<nat, int>, created: seq<nat>)

  /** Another goroutine sets a proc's status or takes the proc out of the queue. */
  datatype Change = SetStatus(proc: nat, status: int) | Leave(proc: nat)

  datatype Commit = Committed | Refused | CrashedBefore | CrashedAfter

  /** What befalls one turn of the engine's loop: the changes others make before its write,
      whether the digest expands, the status the digest gives the proc (Idle unless it names
      one), and what becomes of the write. */
  datatype Turn = Turn(others: seq<Change>, expands: bool, status: int, commit: Commit)

  function RowIndex(d: Digest, proc: nat): nat
    requires d.queueNum >= 1
  {
    proc / d.queueNum
  }

  /** A factory without items has a single implicit row. */
  function Rows(d: Digest): nat { if d.rows == 0 then 1 else d.rows }

  function Total(d: Digest): nat { d.queueNum * Rows(d) }

  function Limit(d: Digest, info: Info): nat {
    if 0 < info.limit < Total(d) then info.limit else Total(d)
  }

  function IdleProcs(procs: map<nat, int>): set<nat> { set p | p in procs && procs[p] == IDLE }

  function Changed(procs: map<nat, int>, change: Change): map<nat, int> {
    match change
    case SetStatus(p, status) => if p in procs then procs[p := status] else procs
    case Leave(p) => procs - {p}
  }

  function AllChanged(procs: map<nat, int>, changes: seq<Change>): map<nat, int> {
    if changes == [] then procs else Changed(AllChanged(procs, changes[..|changes| - 1]), changes[|changes| - 1])
  }

  function Paused(st: Store): Store {
    if st.ad.Some? then st.(ad := Some(st.ad.value.(paused := PAUSE_NO_MORE_ITEMS))) else st
  }

  function Materialized(st: Store, proc: nat, status: int, nextProc: nat, nextRow: int, paused: int): Store
    requires st.ad.Some?
  {
    var info := st.ad.value.(nextProc := nextProc, nextRow := nextRow);
    Store(Some(if paused != 0 then info.(paused := paused) else info), st.procs[proc := status], st.created + [proc])
  }

  /** The engine's loop from `next` on; its i-th turn meets turns(i). */
  function TopUp(st: Store, d: Digest, limit: nat, maxIdle: int, next: nat, idle: int, turns: nat -> Turn,
                 i: nat): Store
    requires d.queueNum >= 1
    decreases limit - next
  {
    if next >= limit then Paused(st)
    else if maxIdle >= 0 && idle >= maxIdle then st
    else
      var turn := turns(i);
      var st1 := st.(procs := AllChanged(st.procs, turn.others));
      if !turn.expands then Paused(st1)
      else if st1.ad.None? || turn.commit.Refused? || turn.commit.CrashedBefore? then st1
      else
        var st2 := Materialized(st1, next, turn.status, next + 1, RowIndex(d, next + 1),
                                if next + 1 >= limit then PAUSE_NO_MORE_ITEMS else 0);
        if turn.commit.CrashedAfter? then st2
        else TopUp(st2, d, limit, maxIdle, next + 1, idle + 1, turns, i + 1)
  }

  /** One visit of the engine; `loads` says whether the spooled digest can be read. */
  function Visited(st: Store, d: Digest, loads: bool, turns: nat -> Turn): Store
    requires d.queueNum >= 1
  {
    if st.ad.None? then st
    else
      var info := st.ad.value;
      if info.paused != 0 then (if st.procs == map[] then st.(ad := None) else st)
      else if !loads then Paused(st)
      else TopUp(st, d, Limit(d, info), info.maxIdle, info.nextProc, |IdleProcs(st.procs)|, turns, 0)
  }

  class Cluster {
    var ad: Option<Info>
    var procs: map<nat, int>
    ghost var created: seq<nat>

    ghost function View(): Store
      reads this
    {
      Store(ad, procs, created)
    }

    method ProcCounts() returns (total: nat, idle: nat)
      ensures total == |procs| && idle == |IdleProcs(procs)|
    {
      total, idle := 0, 0;
      ghost var seen: set<nat>, seenIdle: set<nat> := {}, {};
      var todo := procs.Keys;
      while todo != {}
        invariant todo !! seen && todo + seen == procs.Keys && total == |seen|
        invariant seenIdle <= seen && idle == |seenIdle| && forall p | p in seen :: p in seenIdle <==> procs[p] == IDLE
        decreases |todo|
      {
        var p :| p in todo;
        todo, seen := todo - {p}, seen + {p};
        total := total + 1;
        if procs[p] == IDLE {
          idle, seenIdle := idle + 1, seenIdle + {p};
        }
      }
      assert seen == procs.Keys && seenIdle == IdleProcs(procs);
    }

    method Interfere(changes: seq<Change>)
      modifies this`procs
      ensures procs == AllChanged(old(procs), changes)
    {
      for i := 0 to |changes|
        invariant procs == AllChanged(old(procs), changes[..i])
      {
        assert changes[..i + 1][..i] == changes[..i];
        match changes[i] {
          case SetStatus(p, status) => if p in procs { procs := procs[p := status]; }
          case Leave(p) => procs := procs - {p};
        }
      }
      assert changes[..|changes|] == changes;
    }

    method PauseFactory()
      modifies this`ad
      ensures View() == Paused(old(View()))
    {
      if ad.Some? {
        ad := Some(ad.value.(paused := PAUSE_NO_MORE_ITEMS));
      }
    }

    /** Writes the proc and the advanced cluster ad in one batch. `ok` is what the caller sees;
        a crash is seen by nobody. */
    method MaterializeProc(proc: nat, status: int, nextProc: nat, nextRow: int, paused: int, commit: Commit)
        returns (ok: bool)
      modifies this
      ensures if old(ad).None? || commit.Refused? || commit.CrashedBefore? then View() == old(View()) && !ok
              else View() == Materialized(old(View()), proc, status, nextProc, nextRow, paused)
                   && ok == commit.Committed?
    {
      if ad.None? {
        return false;
      }
      var info := ad.value.(nextProc := nextProc, nextRow := nextRow);
      if paused != 0 {
        info := info.(paused := paused);
      }
      if commit.Refused? || commit.CrashedBefore? {
        return false;
      }
      procs := procs[proc := status];
      ad := Some(info);
      created := created + [proc];
      ok := commit.Committed?;
    }

    method MaterializeCluster(d: Digest, loads: bool, turns: nat -> Turn)
      requires d.queueNum >= 1
      modifies this
      ensures View() == Visited(old(View()), d, loads, turns)
    {
      if ad.None? {
        return;
      }
      var info := ad.value;
      var total, idle := ProcCounts();
      if info.paused != 0 {
        if total == 0 {
          ad := None;
        }
        return;
      }
      if !loads {
        PauseFactory();
        return;
      }
      var rowCount := if d.rows == 0 then 1 else d.rows;
      var limit := d.queueNum * rowCount;
      if info.limit > 0 && info.limit < limit {
        limit := info.limit;
      }
      MaterializeUpTo(d, limit, info.maxIdle, info.nextProc, idle, turns);
    }

    method MaterializeUpTo(d: Digest, limit: nat, maxIdle: int, start: nat, idleAtStart: nat, turns: nat -> Turn)
      requires d.queueNum >= 1
      modifies this
      ensures View() == TopUp(old(View()), d, limit, maxIdle, start, idleAtStart, turns, 0)
    {
      var next, idle, i := start, idleAtStart, 0;
      ghost var goal := TopUp(View(), d, limit, maxIdle, start, idleAtStart, turns, 0);
      while next < limit
        invariant TopUp(View(), d, limit, maxIdle, next, idle, turns, i) == goal
        decreases limit - next
      {
        if maxIdle >= 0 && idle >= maxIdle {
          return;
        }
        var turn := turns(i);
        Interfere(turn.others);
        if !turn.expands {
          PauseFactory();
          return;
        }
        var proc := next;
        next := proc + 1;
        var paused := if next >= limit then PAUSE_NO_MORE_ITEMS else 0;
        var ok := MaterializeProc(proc, turn.status, next, RowIndex(d, next), paused, turn.commit);
        if !ok {
          return;
        }
        idle, i := idle + 1, i + 1;
      }
      PauseFactory();
    }
  }
}
