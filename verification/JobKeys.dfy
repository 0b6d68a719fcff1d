/** The key scheme of the job queue's store: "c.p" for a job, "c.-1" for its cluster. */
module JobKeys {
  import opened Common
  import opened Decimal

  const COUNTER_KEY := "counter"

  function JobKey(c: int, p: int): string { Itoa(c) + "." + Itoa(p) }

  function LastIndex(s: string, ch: char): (i: int)
    ensures -1 <= i < |s|
    ensures forall j | i < j < |s| :: s[j] != ch
    ensures i >= 0 ==> s[i] == ch
  {
    if s == "" then -1
    else if s[|s| - 1] == ch then |s| - 1
    else LastIndex(s[..|s| - 1], ch)
  }

  function ParseJobKey(key: string): Option<(int, int)> {
    var dot := LastIndex(key, '.');
    if dot < 0 then None
    else
      var c, p := Atoi(key[..dot]), Atoi(key[dot + 1..]);
      if c.Some? && p.Some? then Some((c.value, p.value)) else None
  }

  function ParentKeyFor(key: string): Option<string> {
    var id := ParseJobKey(key);
    if id.None? || id.value.1 < 0 then None else Some(Itoa(id.value.0) + ".-1")
  }

  predicate IsStructural(key: string) {
    var id := ParseJobKey(key);
    id.None? || id.value.1 < 0
  }

  /** Parsing undoes printing, for all 64-bit integers. */
  lemma ParseUndoesJobKey(c: int, p: int)
    requires Int64(c) && Int64(p)
    ensures ParseJobKey(JobKey(c, p)) == Some((c, p))
  {
    var key := JobKey(c, p);
    var n := |Itoa(c)|;
    ItoaHasNoDot(p);
    assert key[n] == '.' && key[n + 1..] == Itoa(p) && key[..n] == Itoa(c);
    assert LastIndex(key, '.') == n by {
      assert forall j | n < j < |key| :: key[j] == Itoa(p)[j - n - 1];
    }
    AtoiItoa(c);
    AtoiItoa(p);
  }

  /** Different jobs have different keys. */
  lemma JobKeyIsInjective(c: int, p: int, d: int, q: int)
    requires Int64(c) && Int64(p) && Int64(d) && Int64(q) && JobKey(c, p) == JobKey(d, q)
    ensures c == d && p == q
  {
    ParseUndoesJobKey(c, p);
    ParseUndoesJobKey(d, q);
  }

  lemma ClusterKey(c: int)
    ensures JobKey(c, -1) == Itoa(c) + ".-1"
  {
    assert Digits(1) == "1";
    assert Itoa(-1) == "-1";
    assert Itoa(c) + "." + "-1" == Itoa(c) + ".-1";
  }

  /** A proc is chained to its cluster's ad and visible; a cluster ad is neither. */
  lemma KeysAreChained(c: int, p: int)
    requires Int64(c) && Int64(p)
    ensures ParentKeyFor(JobKey(c, p)) == if p >= 0 then Some(JobKey(c, -1)) else None
    ensures IsStructural(JobKey(c, p)) <==> p < 0
  {
    ParseUndoesJobKey(c, p);
    ClusterKey(c);
  }

  /** The counter is no job's key, is hidden and stands alone. */
  lemma CounterIsNoJob(c: int, p: int)
    ensures JobKey(c, p) != COUNTER_KEY && IsStructural(COUNTER_KEY) && ParentKeyFor(COUNTER_KEY) == None
  {
    assert JobKey(c, p)[|Itoa(c)|] == '.';
    assert '.' !in COUNTER_KEY;
    assert LastIndex(COUNTER_KEY, '.') == -1;
  }
}
