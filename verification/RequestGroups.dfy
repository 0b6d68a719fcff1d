/** Run-length grouping of a submitter's idle jobs into resource requests. */
module RequestGroups {
  import opened Common

  /** An ad of the priority-ordered idle index: its job id, if it has one, and the checksum of
      its significant attributes. */
  datatype Entry = Entry(id: Option<JobId>, sum: nat)

  datatype Group = Group(sum: nat, ids: seq<JobId>)

  function Groups(index: seq<Entry>): seq<Group> {
    if index == [] then []
    else
      var gs := Groups(index[..|index| - 1]);
      var e := index[|index| - 1];
      var n := |gs| - 1;
      if e.id.None? then gs
      else if gs != [] && gs[n].sum == e.sum then gs[n := Group(e.sum, gs[n].ids + [e.id.value])]
      else gs + [Group(e.sum, [e.id.value])]
  }

  /** The ads that have an id, in order. */
  function Jobs(index: seq<Entry>): seq<(JobId, nat)> {
    if index == [] then []
    else
      var e := index[|index| - 1];
      Jobs(index[..|index| - 1]) + if e.id.Some? then [(e.id.value, e.sum)] else []
  }

  function Members(g: Group): seq<(JobId, nat)> { seq(|g.ids|, i requires 0 <= i < |g.ids| => (g.ids[i], g.sum)) }

  function Flat(gs: seq<Group>): seq<(JobId, nat)> {
    if gs == [] then [] else Flat(gs[..|gs| - 1]) + Members(gs[|gs| - 1])
  }

  /** The groups cut `jobs` into maximal runs of equal checksum. */
  predicate MaximalRuns(gs: seq<Group>, jobs: seq<(JobId, nat)>) {
    && Flat(gs) == jobs
    && (forall i | 0 <= i < |gs| :: gs[i].ids != [])
    && (forall i | 0 < i < |gs| :: gs[i].sum != gs[i - 1].sum)
  }

  /** Grouping loses nothing, reorders nothing, and makes every run as long as it can be. */
  lemma {:induction false} GroupingIsLossless(index: seq<Entry>)
    ensures MaximalRuns(Groups(index), Jobs(index))
  {
    if index != [] {
      var before := index[..|index| - 1];
      var e := index[|index| - 1];
      var gs, hs := Groups(before), Groups(index);
      GroupingIsLossless(before);
      if e.id.Some? {
        var n := |hs| - 1;
        assert hs[..n] == gs[..n];
        if |gs| == |hs| {
          assert Members(hs[n]) == Members(gs[n]) + [(e.id.value, e.sum)];
        } else {
          assert gs[..n] == gs;
          assert Members(hs[n]) == [(e.id.value, e.sum)];
        }
      }
    }
  }

  lemma {:induction false} FlatConcat(a: seq<Group>, b: seq<Group>)
    ensures Flat(a + b) == Flat(a) + Flat(b)
  {
    if b == [] {
      assert a + b == a;
    } else {
      var n := |b| - 1;
      var ab := a + b;
      FlatConcat(a, b[..n]);
      assert ab[..|ab| - 1] == a + b[..n] && ab[|ab| - 1] == b[n];
      assert Flat(ab) == Flat(a + b[..n]) + Members(b[n]);
    }
  }

  lemma FlatFront(gs: seq<Group>)
    requires gs != []
    ensures Flat(gs) == Members(gs[0]) + Flat(gs[1..])
  {
    assert gs == [gs[0]] + gs[1..];
    FlatConcat([gs[0]], gs[1..]);
    assert Flat([gs[0]]) == Members(gs[0]) by {
      assert [gs[0]][..0] == [];
    }
  }

  /** The first group of a cut is as long as the first run of equal checksums. */
  lemma FirstRun(a: seq<Group>, jobs: seq<(JobId, nat)>)
    requires MaximalRuns(a, jobs) && a != []
    ensures var n := |a[0].ids|;
            && 0 < n <= |jobs| && jobs[..n] == Members(a[0])
            && (forall i | 0 <= i < n :: jobs[i].1 == jobs[0].1)
            && (n < |jobs| ==> jobs[n].1 != jobs[0].1)
            && MaximalRuns(a[1..], jobs[n..])
  {
    FlatFront(a);
    if |a| > 1 {
      FlatFront(a[1..]);
      assert a[1..][0] == a[1];
      assert Flat(a[1..])[0] == Members(a[1])[0];
    }
  }

  /** There is only one way to cut a sequence of jobs into maximal runs. */
  lemma {:induction false} MaximalRunsAreUnique(a: seq<Group>, b: seq<Group>, jobs: seq<(JobId, nat)>)
    requires MaximalRuns(a, jobs) && MaximalRuns(b, jobs)
    ensures a == b
    decreases |a|
  {
    if a == [] {
      if b != [] {
        FirstRun(b, jobs);
      }
    } else if b == [] {
      FirstRun(a, jobs);
    } else {
      FirstRun(a, jobs);
      FirstRun(b, jobs);
      SameFirst(a[0], b[0], jobs);
      MaximalRunsAreUnique(a[1..], b[1..], jobs[|a[0].ids|..]);
      assert a == [a[0]] + a[1..] && b == [b[0]] + b[1..];
    }
  }

  lemma SameFirst(g: Group, h: Group, jobs: seq<(JobId, nat)>)
    requires 0 < |g.ids| <= |jobs| && jobs[..|g.ids|] == Members(g)
    requires 0 < |h.ids| <= |jobs| && jobs[..|h.ids|] == Members(h)
    requires forall i | 0 <= i < |g.ids| :: jobs[i].1 == jobs[0].1
    requires forall i | 0 <= i < |h.ids| :: jobs[i].1 == jobs[0].1
    requires |g.ids| < |jobs| ==> jobs[|g.ids|].1 != jobs[0].1
    requires |h.ids| < |jobs| ==> jobs[|h.ids|].1 != jobs[0].1
    ensures g == h
  {
    assert |g.ids| == |h.ids|;
    assert Members(g)[0] == jobs[0] && Members(h)[0] == jobs[0];
    forall i | 0 <= i < |g.ids|
      ensures g.ids[i] == h.ids[i]
    {
      assert Members(g)[i] == jobs[i] && Members(h)[i] == jobs[i];
    }
  }

  /** Once a further group is begun the ones before it are final. */
  lemma {:induction false} GroupsAreStable(index: seq<Entry>, i: nat)
    requires i <= |index| && Groups(index[..i]) != []
    ensures var gs := Groups(index[..i]);
            |gs| <= |Groups(index)| && gs[..|gs| - 1] == Groups(index)[..|gs| - 1]
  {
    if i == |index| {
      assert index[..i] == index;
    } else {
      var before := index[..|index| - 1];
      assert before[..i] == index[..i];
      GroupsAreStable(before, i);
    }
  }

  /** The consumer asked for more after each group of `seen`. */
  predicate Wanted(more: seq<Group> -> bool, seen: seq<Group>) {
    seen == [] || (Wanted(more, seen[..|seen| - 1]) && more(seen))
  }

  /** What a consumer has seen that is asked, after each group, whether to go on: all the groups,
      or those up to the first it did not want more after. */
  predicate SeenBy(more: seq<Group> -> bool, all: seq<Group>, seen: seq<Group>) {
    && seen <= all
    && (seen == [] || Wanted(more, seen[..|seen| - 1]))
    && (seen == all || (seen != [] && !more(seen)))
  }

  lemma BegunGroupsAreFinal(index: seq<Entry>, i: nat, gs: seq<Group>, g: Group)
    requires i <= |index| && Groups(index[..i]) == gs + [g]
    ensures gs <= Groups(index)
  {
    GroupsAreStable(index, i);
    assert (gs + [g])[..|gs|] == gs;
  }

  /** Yields the groups one by one while walking the index, until the consumer has had enough. */
  method IdleRequestGroups(index: seq<Entry>, more: seq<Group> -> bool) returns (seen: seq<Group>)
    ensures SeenBy(more, Groups(index), seen)
  {
    seen := [];
    var cur := Group(0, []);
    var have := false;
    for i := 0 to |index|
      invariant Groups(index[..i]) == if have then seen + [cur] else []
      invariant !have ==> seen == []
      invariant Wanted(more, seen)
    {
      assert index[..i + 1][..i] == index[..i];
      var e := index[i];
      if e.id.None? {
        continue;
      }
      if have && e.sum == cur.sum {
        cur := cur.(ids := cur.ids + [e.id.value]);
        continue;
      }
      if have {
        assert (seen + [cur])[..|seen|] == seen;
        seen := seen + [cur];
        if !more(seen) {
          BegunGroupsAreFinal(index, i + 1, seen, Group(e.sum, [e.id.value]));
          return;
        }
      }
      cur := Group(e.sum, [e.id.value]);
      have := true;
    }
    assert index[..|index|] == index;
    if have {
      assert (seen + [cur])[..|seen|] == seen;
      seen := seen + [cur];
    }
  }
}
