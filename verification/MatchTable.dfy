/**
 The table of claimed matches and their leases. Claim ids are secret; the table is keyed
 by the public id of a claim, which `pub` extracts. Times and durations count nanoseconds
 in 64 bits.
 */
module MatchTable {
  import opened Common

  const SECOND := 1_000_000_000
  const DEFAULT_ALIVES_MISSED := 6
  const TWO_63 := 0x8000_0000_0000_0000
  const TWO_64 := 0x1_0000_0000_0000_0000

  /** `deadline` is None when no lease was ever set. */
  datatype Rec = Rec(interval: int, deadline: Option<int>)

  type Recs = map<string, Rec>

  function Wrap64(x: int): int { (x + TWO_63) % TWO_64 - TWO_63 }

  function LeaseDuration(alivesMissed: int, interval: int): int {
    var n := if alivesMissed <= 0 then DEFAULT_ALIVES_MISSED else alivesMissed;
    var iv := if interval <= 0 then 1 else interval;
    Wrap64(Wrap64(n * iv) * SECOND)
  }

  /** One operation on the table, by the ALIVE handler, a run goroutine or the lease sweep. */
  datatype Op =
    | Alive(claim: string, at: int)
    | Create(claim: string, interval: int, at: int)
    | Drop(claim: string)
    | Renew(claim: string, at: int, span: int)

  function Effect(n: int, pub: string -> string, recs: Recs, op: Op): Recs {
    var p := pub(op.claim);
    match op
    case Alive(_, at) =>
      if p in recs then recs[p := recs[p].(deadline := Some(at + LeaseDuration(n, recs[p].interval)))] else recs
    case Create(_, interval, at) => recs[p := Rec(interval, Some(at + LeaseDuration(n, interval)))]
    case Drop(_) => recs - {p}
    case Renew(_, at, span) => if p in recs then recs[p := recs[p].(deadline := Some(at + span))] else recs
  }

  function Effects(n: int, pub: string -> string, recs: Recs, ops: seq<Op>): Recs {
    if ops == [] then recs else Effect(n, pub, Effects(n, pub, recs, ops[..|ops| - 1]), ops[|ops| - 1])
  }

  lemma {:induction false} EffectsAppend(n: int, pub: string -> string, recs: Recs, ops: seq<Op>, more: seq<Op>)
    ensures Effects(n, pub, recs, ops + more) == Effects(n, pub, Effects(n, pub, recs, ops), more)
  {
    if more == [] {
      assert ops + more == ops;
    } else {
      EffectsAppend(n, pub, recs, ops, more[..|more| - 1]);
      assert (ops + more)[..|ops + more| - 1] == ops + more[..|more| - 1];
    }
  }

  /** The record's lease has run out. */
  predicate Lapsed(rec: Rec, now: int) { rec.deadline.Some? && now > rec.deadline.value }

  function Expired(recs: Recs, now: int): set<string> { set p | p in recs && Lapsed(recs[p], now) }

  /** The lease the operation sets, if any, reaches to `end`. */
  predicate Lasts(n: int, pub: string -> string, recs: Recs, op: Op, end: int) {
    match op
    case Alive(c, at) => pub(c) in recs ==> at + LeaseDuration(n, recs[pub(c)].interval) >= end
    case Create(_, interval, at) => at + LeaseDuration(n, interval) >= end
    case Drop(_) => true
    case Renew(_, at, span) => at + span >= end
  }

  /** Every lease set for the claim with public id p reaches to `end`; other claims do not matter. */
  predicate AllLast(n: int, pub: string -> string, recs: Recs, ops: seq<Op>, p: string, end: int) {
    ops == []
    || (var op := ops[|ops| - 1];
        var before := ops[..|ops| - 1];
        && AllLast(n, pub, recs, before, p, end)
        && (pub(op.claim) == p ==> Lasts(n, pub, Effects(n, pub, recs, before), op, end)))
  }

  /** A claim renewed anywhere in the pass is not expired at its end, however the other
      operations fall, as long as the leases set for it meanwhile reach that far. */
  lemma {:induction false} RenewedIsKept(n: int, pub: string -> string, recs: Recs, ops: seq<Op>, i: nat, end: int)
    requires i < |ops| && ops[i].Renew? && AllLast(n, pub, recs, ops, pub(ops[i].claim), end)
    ensures pub(ops[i].claim) !in Expired(Effects(n, pub, recs, ops), end)
  {
    if i < |ops| - 1 {
      RenewedIsKept(n, pub, recs, ops[..|ops| - 1], i, end);
    }
  }

  /** Operations on other claims leave a record alone. */
  lemma {:induction false} OthersLeave(n: int, pub: string -> string, recs: Recs, ops: seq<Op>, p: string)
    requires forall i | 0 <= i < |ops| :: pub(ops[i].claim) != p
    ensures var t := Effects(n, pub, recs, ops); (p in t <==> p in recs) && (p in recs ==> t[p] == recs[p])
  {
    if ops != [] {
      OthersLeave(n, pub, recs, ops[..|ops| - 1], p);
    }
  }

  /** What an operation leaves of its claim's record. */
  predicate Decides(n: int, op: Op, p: string, s: Recs, t: Recs) {
    match op
    case Alive(_, at) =>
      (p in t <==> p in s) && (p in s ==> t[p] == Rec(s[p].interval, Some(at + LeaseDuration(n, s[p].interval))))
    case Create(_, interval, at) => p in t && t[p] == Rec(interval, Some(at + LeaseDuration(n, interval)))
    case Drop(_) => p !in t
    case Renew(_, at, span) =>
      (p in t <==> p in s) && (p in s ==> t[p] == Rec(s[p].interval, Some(at + span)))
  }

  lemma OpDecides(n: int, pub: string -> string, recs: Recs, op: Op)
    ensures Decides(n, op, pub(op.claim), recs, Effect(n, pub, recs, op))
  {
  }

  /** The last operation on a claim decides its record: a creation or a renewal sets the end of the
      lease counted from its own moment, an alive message counts the record's own interval, neither
      revives a record that is gone, and a removal is final. */
  lemma LastOneDecides(n: int, pub: string -> string, recs: Recs, ops: seq<Op>, i: nat)
    requires i < |ops| && forall j | i < j < |ops| :: pub(ops[j].claim) != pub(ops[i].claim)
    ensures Decides(n, ops[i], pub(ops[i].claim), Effects(n, pub, recs, ops[..i]), Effects(n, pub, recs, ops))
  {
    var p := pub(ops[i].claim);
    var before, after := Effects(n, pub, recs, ops[..i]), Effects(n, pub, recs, ops[..i + 1]);
    assert ops[..i + 1][..i] == ops[..i];
    OpDecides(n, pub, before, ops[i]);
    assert ops == ops[..i + 1] + ops[i + 1..];
    EffectsAppend(n, pub, recs, ops[..i + 1], ops[i + 1..]);
    OthersLeave(n, pub, after, ops[i + 1..], p);
  }

  /** What a sweep leaves of a table: exactly the records without a deadline or with one not yet past,
      and those as they were. */
  ghost predicate Spared(recs: Recs, left: Recs, now: int) {
    && (forall p :: p in left <==> p in recs && (recs[p].deadline == None || now <= recs[p].deadline.value))
    && (forall p | p in left :: left[p] == recs[p])
  }

  lemma SweepSpares(recs: Recs, now: int)
    ensures Spared(recs, recs - Expired(recs, now), now)
  {
  }

  lemma WrapsAround(x: int)
    ensures -TWO_63 <= Wrap64(x) < TWO_63 && (x - Wrap64(x)) % TWO_64 == 0
  {
  }

  /** The lease is the interval times the missed alives, six of them unless another positive number
      was set and one second at the least, as long as the product fits 64 bits. */
  lemma LeaseFits(n: int, interval: int)
    requires var missed := if n >= 1 then n else 6;
             var seconds := if interval >= 1 then interval else 1;
             missed * seconds * 1_000_000_000 < TWO_63
    ensures var missed := if n >= 1 then n else 6;
            var seconds := if interval >= 1 then interval else 1;
            LeaseDuration(n, interval) == missed * seconds * 1_000_000_000
  {
    var missed := if n >= 1 then n else 6;
    var seconds := if interval >= 1 then interval else 1;
    assert missed * seconds >= 1;
    assert missed * seconds <= missed * seconds * SECOND;
  }

  class Table {
    const pub: string -> string
    var alivesMissed: int
    var recs: Recs

    constructor (pub: string -> string)
      ensures this.pub == pub && alivesMissed == DEFAULT_ALIVES_MISSED && recs == map[]
    {
      this.pub, alivesMissed, recs := pub, DEFAULT_ALIVES_MISSED, map[];
    }

    method SetAlivesMissed(n: int)
      modifies this`alivesMissed
      ensures alivesMissed == (if n <= 0 then DEFAULT_ALIVES_MISSED else n)
      ensures forall iv :: LeaseDuration(alivesMissed, iv) == LeaseDuration(n, iv)
    {
      alivesMissed := if n <= 0 then DEFAULT_ALIVES_MISSED else n;
    }

    /** `imported` says whether the claim's security session could be imported. */
    method CreateFromClaim(claim: string, interval: int, now: int, imported: bool) returns (ok: bool)
      modifies this`recs
      ensures ok == imported
      ensures recs == (if ok then Effect(alivesMissed, pub, old(recs), Create(claim, interval, now)) else old(recs))
    {
      if !imported {
        return false;
      }
      var public := pub(claim);
      recs := recs[public := Rec(interval, Some(now + LeaseDuration(alivesMissed, interval)))];
      return true;
    }

    method RenewLease(claim: string, now: int) returns (ok: bool)
      modifies this`recs
      ensures recs == Effect(alivesMissed, pub, old(recs), Alive(claim, now))
      ensures ok <==> pub(claim) in old(recs)
    {
      var public := pub(claim);
      if public !in recs {
        return false;
      }
      var rec := recs[public];
      recs := recs[public := rec.(deadline := Some(now + LeaseDuration(alivesMissed, rec.interval)))];
      return true;
    }

    method RenewLeaseFor(claim: string, d: int, now: int) returns (ok: bool)
      modifies this`recs
      ensures recs == Effect(alivesMissed, pub, old(recs), Renew(claim, now, d))
      ensures ok <==> pub(claim) in old(recs)
    {
      var public := pub(claim);
      if public !in recs {
        return false;
      }
      recs := recs[public := recs[public].(deadline := Some(now + d))];
      return true;
    }

    method Remove(claim: string) returns (rec: Option<Rec>)
      modifies this`recs
      ensures recs == Effect(alivesMissed, pub, old(recs), Drop(claim))
      ensures rec == if pub(claim) in old(recs) then Some(old(recs)[pub(claim)]) else None
    {
      var public := pub(claim);
      if public in recs {
        rec := Some(recs[public]);
        recs := recs - {public};
      } else {
        rec := None;
      }
    }

    /** Deletes the expired records while ranging over the table in any order. */
    method ExpireSweep(now: int) returns (expired: seq<string>)
      modifies this`recs
      ensures recs == old(recs) - Expired(old(recs), now)
      ensures (set p | p in expired) == Expired(old(recs), now)
      ensures Spared(old(recs), recs, now)
      ensures forall i, j | 0 <= i < j < |expired| :: expired[i] != expired[j]
    {
      expired := [];
      ghost var gone: set<string> := {};
      var todo := recs.Keys;
      while todo != {}
        invariant todo !! gone && todo <= old(recs).Keys
        invariant recs == old(recs) - gone
        invariant forall p | p in old(recs) && p !in todo :: p in gone <==> Lapsed(old(recs)[p], now)
        invariant gone <= old(recs).Keys && gone == set p | p in expired
        invariant forall i, j | 0 <= i < j < |expired| :: expired[i] != expired[j]
        decreases |todo|
      {
        var p :| p in todo;
        assert recs[p] == old(recs)[p];
        if recs[p].deadline.Some? && now > recs[p].deadline.value {
          expired := expired + [p];
          recs := recs - {p};
          gone := gone + {p};
        }
        todo := todo - {p};
      }
      assert gone == Expired(old(recs), now);
      SweepSpares(old(recs), now);
    }

    /** What other goroutines do to the table before the sweep gets its lock again. */
    method Interfere(ops: seq<Op>)
      modifies this`recs
      ensures recs == Effects(alivesMissed, pub, old(recs), ops)
    {
      var i := 0;
      while i < |ops|
        invariant 0 <= i <= |ops|
        invariant recs == Effects(alivesMissed, pub, old(recs), ops[..i])
      {
        assert ops[..i + 1][..i] == ops[..i];
        match ops[i] {
          case Alive(claim, at) => var _ := RenewLease(claim, at);
          case Create(claim, interval, at) => var _ := CreateFromClaim(claim, interval, at, true);
          case Drop(claim) => var _ := Remove(claim);
          case Renew(claim, at, span) => var _ := RenewLeaseFor(claim, span, at);
        }
        i := i + 1;
      }
      assert ops[..i] == ops;
    }
  }
}
