/** The lease sweep against the other goroutines that use the match table meanwhile. */
module LeaseSweep {
  import opened Common
  import opened SchedulerCore
  import opened MatchTable

  /** What happens to the table up to the visit of run k, other goroutines' operations first. */
  function Visit(running: map<JobId, RunInfo>, k: JobId, others: seq<Op>, at: int, span: int): seq<Op> {
    others + if LiveRun(running, k) then [Renew(running[k].claim, at, span)] else []
  }

  /** The table operations of the renewing half of a pass that visits the runs in `order`:
      before the i-th visit other goroutines do others(i), and the visit happens at clock(i). */
  function Renewals(running: map<JobId, RunInfo>, order: seq<JobId>, others: nat -> seq<Op>, clock: nat -> int,
                    span: int): seq<Op> {
    if order == [] then []
    else
      var i := |order| - 1;
      Renewals(running, order[..i], others, clock, span) + Visit(running, order[i], others(i), clock(i), span)
  }

  /** All the table operations up to the moment the expired records are collected. */
  function Pass(running: map<JobId, RunInfo>, order: seq<JobId>, others: nat -> seq<Op>, clock: nat -> int,
                span: int): seq<Op> {
    Renewals(running, order, others, clock, span) + others(|order|)
  }

  /** One run is picked for each expired record that a run not yet vacated holds. */
  predicate Picks(running: map<JobId, RunInfo>, pub: string -> string, expired: set<string>,
                  picked: map<string, JobId>) {
    && picked.Keys <= expired
    && (forall p | p in picked ::
          picked[p] in running && !running[picked[p]].vacated && pub(running[picked[p]].claim) == p)
    && (forall k | k in running && !running[k].vacated && pub(running[k].claim) in expired ::
          pub(running[k].claim) in picked)
  }

  lemma {:induction false} LiveRunIsRenewed(running: map<JobId, RunInfo>, order: seq<JobId>, others: nat -> seq<Op>,
                                            clock: nat -> int, span: int, j: nat) returns (i: nat)
    requires j < |order| && LiveRun(running, order[j])
    ensures var ops := Renewals(running, order, others, clock, span);
            i < |ops| && ops[i] == Renew(running[order[j]].claim, clock(j), span)
  {
    var n := |order| - 1;
    if j < n {
      i := LiveRunIsRenewed(running, order[..n], others, clock, span, j);
    } else {
      i := |Renewals(running, order[..n], others, clock, span)| + |others(n)|;
    }
  }

  /** A run that is live when the pass begins is neither vacated nor is its job requeued, whatever
      its alive interval and whatever happens to the table meanwhile, provided the pass ends
      before the leases set during it for the run's own claim do. */
  lemma SweepSparesLiveRuns(c: Core, order: seq<JobId>, others: nat -> seq<Op>, clock: nat -> int, span: int,
                            n: int, pub: string -> string, recs: Recs, end: int, picked: map<string, JobId>, now: int,
                            k: JobId)
    requires LiveRun(c.running, k) && k in order
    requires AllLast(n, pub, recs, Pass(c.running, order, others, clock, span), pub(c.running[k].claim), end)
    requires Picks(c.running, pub, Expired(Effects(n, pub, recs, Pass(c.running, order, others, clock, span)), end),
                   picked)
    ensures var d := OnSweep(c, picked.Values, now, now);
            && k in d.running && d.running[k] == c.running[k]
            && (k in c.jobs ==> k in d.jobs && d.jobs[k].status == c.jobs[k].status)
  {
    var j :| 0 <= j < |order| && order[j] == k;
    var i := LiveRunIsRenewed(c.running, order, others, clock, span, j);
    RenewedIsKept(n, pub, recs, Pass(c.running, order, others, clock, span), i, end);
    assert k !in picked.Values;
  }

  /** The operation sets a lease that ends before `end`. */
  predicate SetsShort(n: int, pub: string -> string, recs: Recs, op: Op, end: int) {
    match op
    case Alive(c, at) => pub(c) in recs && at + LeaseDuration(n, recs[pub(c)].interval) < end
    case Create(_, interval, at) => at + LeaseDuration(n, interval) < end
    case Drop(_) => false
    case Renew(c, at, span) => pub(c) in recs && at + span < end
  }

  /** The other half: if the last operation of the pass on the claim of a run not yet vacated set a
      lease that ends before the pass does, then a run holding that claim is vacated and told to
      stop, and its Running job goes back to Idle without host and claim. */
  lemma SweepVacatesLapsed(c: Core, order: seq<JobId>, others: nat -> seq<Op>, clock: nat -> int, span: int,
                           n: int, pub: string -> string, recs: Recs, end: int, picked: map<string, JobId>, now: int,
                           k: JobId, i: nat)
    requires k in c.running && !c.running[k].vacated
    requires var ops := Pass(c.running, order, others, clock, span);
             && i < |ops| && pub(ops[i].claim) == pub(c.running[k].claim)
             && (forall j | i < j < |ops| :: pub(ops[j].claim) != pub(ops[i].claim))
             && SetsShort(n, pub, Effects(n, pub, recs, ops[..i]), ops[i], end)
    requires Picks(c.running, pub, Expired(Effects(n, pub, recs, Pass(c.running, order, others, clock, span)), end),
                   picked)
    ensures var d := OnSweep(c, picked.Values, now, now);
            var p := pub(c.running[k].claim);
            && p in picked && picked[p] in d.running && pub(d.running[picked[p]].claim) == p
            && d.running[picked[p]].vacated && d.running[picked[p]].cancelled
            && (picked[p] in c.jobs && c.jobs[picked[p]].status == 2 ==>
                  && picked[p] in d.jobs && d.jobs[picked[p]].status == 1
                  && d.jobs[picked[p]].host == "" && d.jobs[picked[p]].claim == "")
  {
    var ops := Pass(c.running, order, others, clock, span);
    LastOneDecides(n, pub, recs, ops, i);
    assert picked[pub(ops[i].claim)] in picked.Values;
  }

  /** A lease that was set before the pass and not touched in it runs out all the same. */
  lemma SweepVacatesForgotten(c: Core, order: seq<JobId>, others: nat -> seq<Op>, clock: nat -> int, span: int,
                              n: int, pub: string -> string, recs: Recs, end: int, picked: map<string, JobId>,
                              now: int, k: JobId)
    requires k in c.running && !c.running[k].vacated
    requires var ops := Pass(c.running, order, others, clock, span);
             forall j | 0 <= j < |ops| :: pub(ops[j].claim) != pub(c.running[k].claim)
    requires var p := pub(c.running[k].claim); p in recs && recs[p].deadline.Some? && recs[p].deadline.value < end
    requires Picks(c.running, pub, Expired(Effects(n, pub, recs, Pass(c.running, order, others, clock, span)), end),
                   picked)
    ensures var d := OnSweep(c, picked.Values, now, now);
            var p := pub(c.running[k].claim);
            && p in picked && picked[p] in d.running && d.running[picked[p]].vacated
            && (picked[p] in c.jobs && c.jobs[picked[p]].status == 2 ==>
                  picked[p] in d.jobs && d.jobs[picked[p]].status == 1)
  {
    var ops := Pass(c.running, order, others, clock, span);
    OthersLeave(n, pub, recs, ops, pub(c.running[k].claim));
    assert picked[pub(c.running[k].claim)] in picked.Values;
  }
}
