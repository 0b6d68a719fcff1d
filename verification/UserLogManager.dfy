/**
 The manager's own loops, run without interference: finding a file's state, evicting an idle
 one under the file cap, and draining a file. Each is a sequence of the pool's steps, so what
 holds of every interleaving holds of it.
 */
module UserLogManager {
  import opened Common
  import opened UserLogPool
  import UserLogProofs

  class Manager {
    const cfg: Config
    var files: map<string, nat>
    var states: seq<File>
    var closing: bool
    ghost var rest: Pool  // the ready queue, the other goroutines and the history

    ghost function View(): Pool
      reads this
    {
      rest.(files := files, states := states, closing := closing)
    }

    constructor (cfg: Config)
      ensures this.cfg == cfg && View() == EMPTY
    {
      this.cfg, files, states, closing, rest := cfg, map[], [], false, EMPTY;
    }

    /** Drops the first idle file it comes across. */
    method EvictIdleLocked() returns (ok: bool)
      requires InRange(View()) && rest.judged.None?
      modifies this`files, this`rest
      ensures ok ==> Evicts(old(View()), View())
      ensures !ok ==> View() == old(View())
                      && forall p | p in files ::
                           var file := states[files[p]]; file.owned || file.enqueued || file.buffer != []
    {
      var todo := files.Keys;
      while todo != {}
        invariant todo <= files.Keys && files == old(files) && rest == old(rest)
        invariant forall p | p in files && p !in todo :: !Quiet(states[files[p]])
        decreases |todo|
      {
        var p :| p in todo;
        todo := todo - {p};
        var file := states[files[p]];
        if !file.owned && !file.enqueued && file.buffer == [] {
          rest := rest.(strayed := rest.strayed || Held(View(), files[p]));
          files := files - {p};
          assert View() == Forgotten(old(View()), p);
          return true;
        }
      }
      return false;
    }

    method Hand(ghost g: nat, path: string) returns (f: nat)
      requires InRange(View()) && Enabled(cfg, View(), Lookup(g, path))
      modifies this`rest
      ensures path in files && f == files[path] && View() == Apply(cfg, old(View()), Lookup(g, path))
    {
      f := files[path];
      rest := rest.(routines := rest.routines[g := Holding(f)]);
    }

    method Track(ghost g: nat, path: string) returns (f: nat)
      requires InRange(View()) && Enabled(cfg, View(), Create(g, path))
      modifies this`files, this`states, this`rest
      ensures f == old(|states|) && View() == Apply(cfg, old(View()), Create(g, path))
    {
      f := |states|;
      states := states + [File(path, [], false, false, [], [])];
      files := files[path := f];
      rest := rest.(routines := rest.routines[g := Holding(f)]);
    }

    /** The state for `path`, created on demand, for goroutine g; None when shutting down or when
        the cap is reached and no file is idle. `before` is the pool just before the state was
        found or created: the one the call met, less an evicted file if there was no room. */
    method FileFor(ghost g: nat, path: string) returns (found: Option<nat>, ghost before: Pool)
      requires InRange(View()) && rest.judged.None? && g !in rest.routines && |files| <= cfg.maxFiles
      requires cfg.maxFiles >= 1
      modifies this`files, this`states, this`rest
      ensures found.None? ==> View() == old(View())
                              && (closing || (path !in files && |files| >= cfg.maxFiles
                                              && forall p | p in files ::
                                                   var file := states[files[p]];
                                                   file.owned || file.enqueued || file.buffer != []))
      ensures found.Some? ==> before == old(View()) || (old(|files|) >= cfg.maxFiles && Evicts(old(View()), before))
      ensures found.Some? ==> InRange(before) && Enabled(cfg, before, Found(g, path, before))
      ensures found.Some? ==> View() == Apply(cfg, before, Found(g, path, before))
      ensures found.Some? ==> g in rest.routines && rest.routines[g] == Holding(found.value)
      ensures found.Some? ==> !old(closing) && path in files && files[path] == found.value
                              && found.value < |states| && states[found.value].path == path
      ensures |files| <= cfg.maxFiles
    {
      before := View();
      if closing {
        return None, before;
      }
      if path in files {
        var f := Hand(g, path);
        return Some(f), before;
      }
      if |files| >= cfg.maxFiles {
        var ok := EvictIdleLocked();
        if !ok {
          return None, before;
        }
        EvictionMakesRoom(before, View());
        before := View();
      }
      UserLogProofs.OneMore(files, path, |states|);
      var f := Track(g, path);
      return Some(f), before;
    }

    /** Worker g, which owns file f, writes everything buffered, in order, and releases the file. */
    method DrainFile(ghost g: nat, f: nat)
      requires f < |states|
      modifies this`states, this`rest
      ensures View() == AfterDrain(old(View()), g, f)
    {
      ghost var file := states[f];
      while states[f].buffer != []
        invariant |states| == |old(states)| && states == old(states)[f := states[f]] && rest == old(rest)
        invariant states[f] == file.(buffer := states[f].buffer, written := states[f].written)
        invariant states[f].written + states[f].buffer == file.written + file.buffer
        decreases |states[f].buffer|
      {
        var ev := states[f].buffer[0];
        var next := states[f].(buffer := states[f].buffer[1..], written := states[f].written + [ev]);
        assert next.written + next.buffer == states[f].written + states[f].buffer;
        states := states[f := next];
      }
      assert states[f].written + [] == states[f].written;
      states := states[f := states[f].(owned := false)];
      rest := rest.(routines := rest.routines - {g});
      assert states == AfterDrain(old(View()), g, f).states;
    }
  }

  // ----- draining as steps of the pool -----

  /** The pool after worker g drained file f undisturbed. */
  function AfterDrain(s: Pool, g: nat, f: nat): Pool
    requires f < |s.states|
  {
    var file := s.states[f];
    s.(states := s.states[f := file.(buffer := [], owned := false, written := file.written + file.buffer)],
       routines := s.routines - {g})
  }

  /** Receive and write each of n events, then find the buffer empty and release the file. */
  function DrainMoves(n: nat): seq<Move> {
    if n == 0 then [Receive, Release] else [Receive, Write] + DrainMoves(n - 1)
  }

  /** Goroutine g gets from s to t by these moves, each of them possible when it is made. */
  predicate Does(cfg: Config, s: Pool, g: nat, moves: seq<Move>, t: Pool)
    decreases |moves|
  {
    if moves == [] then s == t
    else InRange(s) && Enabled(cfg, s, Go(g, moves[0])) && Does(cfg, Apply(cfg, s, Go(g, moves[0])), g, moves[1..], t)
  }

  lemma DoesOne(cfg: Config, s: Pool, g: nat, move: Move, more: seq<Move>, u: Pool, t: Pool)
    requires InRange(s) && Enabled(cfg, s, Go(g, move)) && u == Apply(cfg, s, Go(g, move))
    requires Does(cfg, u, g, more, t)
    ensures Does(cfg, s, g, [move] + more, t)
  {
    assert ([move] + more)[1..] == more;
  }

  lemma DoesTwo(cfg: Config, s: Pool, g: nat, a: Move, b: Move, more: seq<Move>, u: Pool, v: Pool, t: Pool)
    requires InRange(s) && Enabled(cfg, s, Go(g, a)) && u == Apply(cfg, s, Go(g, a))
    requires InRange(u) && Enabled(cfg, u, Go(g, b)) && v == Apply(cfg, u, Go(g, b))
    requires Does(cfg, v, g, more, t)
    ensures Does(cfg, s, g, [a, b] + more, t)
  {
    DoesOne(cfg, u, g, b, more, v, t);
    DoesOne(cfg, s, g, a, [b] + more, u, t);
    assert [a] + ([b] + more) == [a, b] + more;
  }

  /** The pool after worker g received one event of file f and wrote it. */
  function AfterOne(s: Pool, f: nat): Pool
    requires f < |s.states| && s.states[f].buffer != []
  {
    var file := s.states[f];
    s.(states := s.states[f := file.(buffer := file.buffer[1..], written := file.written + [file.buffer[0]])])
  }

  /** The pool while worker g is at the given place with file f in the given state. */
  function Midway(s: Pool, g: nat, f: nat, file: File, pc: Pc): Pool
    requires f < |s.states|
  {
    s.(states := s.states[f := file], routines := s.routines[g := pc])
  }

  lemma ReceiveThenWrite(cfg: Config, s: Pool, g: nat, f: nat) returns (u: Pool)
    requires InRange(s) && g in s.routines && s.routines[g] == Draining(f) && s.states[f].buffer != []
    ensures Enabled(cfg, s, Go(g, Receive)) && u == Apply(cfg, s, Go(g, Receive))
    ensures InRange(u) && Enabled(cfg, u, Go(g, Write)) && AfterOne(s, f) == Apply(cfg, u, Go(g, Write))
  {
    var file := s.states[f];
    u := Apply(cfg, s, Go(g, Receive));
    UserLogProofs.KeepsRange(cfg, s, Go(g, Receive));
    assert u == Midway(s, g, f, file.(buffer := file.buffer[1..]), Writing(f, file.buffer[0]));
    WriteBack(cfg, s, g, f, u);
  }

  lemma WriteBack(cfg: Config, s: Pool, g: nat, f: nat, u: Pool)
    requires InRange(u) && f < |s.states| && g in s.routines && s.routines[g] == Draining(f) && s.states[f].buffer != []
    requires u == Midway(s, g, f, s.states[f].(buffer := s.states[f].buffer[1..]), Writing(f, s.states[f].buffer[0]))
    ensures Enabled(cfg, u, Go(g, Write)) && AfterOne(s, f) == Apply(cfg, u, Go(g, Write))
  {
    var v := Apply(cfg, u, Go(g, Write));
    assert v.routines == s.routines;
    assert v.states == AfterOne(s, f).states;
  }

  lemma ReceiveThenRelease(cfg: Config, s: Pool, g: nat, f: nat) returns (u: Pool)
    requires InRange(s) && g in s.routines && s.routines[g] == Draining(f) && s.states[f].buffer == []
    ensures Enabled(cfg, s, Go(g, Receive)) && u == Apply(cfg, s, Go(g, Receive))
    ensures InRange(u) && Enabled(cfg, u, Go(g, Release)) && AfterDrain(s, g, f) == Apply(cfg, u, Go(g, Release))
  {
    u := Apply(cfg, s, Go(g, Receive));
    UserLogProofs.KeepsRange(cfg, s, Go(g, Receive));
    assert u == Midway(s, g, f, s.states[f], Checking(f));
    ReleaseBack(cfg, s, g, f, u);
  }

  lemma ReleaseBack(cfg: Config, s: Pool, g: nat, f: nat, u: Pool)
    requires InRange(u) && f < |s.states| && g in s.routines && s.states[f].buffer == []
    requires u == Midway(s, g, f, s.states[f], Checking(f))
    ensures Enabled(cfg, u, Go(g, Release)) && AfterDrain(s, g, f) == Apply(cfg, u, Go(g, Release))
  {
    var file := s.states[f];
    var v := Apply(cfg, u, Go(g, Release));
    assert file.written + file.buffer == file.written;
    assert v.routines == s.routines - {g};
    assert v.states == AfterDrain(s, g, f).states;
  }

  lemma AfterOneDrains(s: Pool, g: nat, f: nat)
    requires f < |s.states| && s.states[f].buffer != []
    ensures AfterDrain(AfterOne(s, f), g, f) == AfterDrain(s, g, f)
  {
    var file := s.states[f];
    assert file.written + [file.buffer[0]] + file.buffer[1..] == file.written + file.buffer;
    assert AfterDrain(AfterOne(s, f), g, f).states == AfterDrain(s, g, f).states;
  }

  lemma DrainEmpty(cfg: Config, s: Pool, g: nat, f: nat)
    requires InRange(s) && g in s.routines && s.routines[g] == Draining(f) && s.states[f].buffer == []
    ensures Does(cfg, s, g, DrainMoves(0), AfterDrain(s, g, f))
  {
    var u := ReceiveThenRelease(cfg, s, g, f);
    DoesTwo(cfg, s, g, Receive, Release, [], u, AfterDrain(s, g, f), AfterDrain(s, g, f));
    assert [Receive, Release] + [] == DrainMoves(0);
  }

  lemma DrainOne(cfg: Config, s: Pool, g: nat, f: nat, n: nat, t: Pool)
    requires InRange(s) && g in s.routines && s.routines[g] == Draining(f) && s.states[f].buffer != []
    requires Does(cfg, AfterOne(s, f), g, DrainMoves(n), t)
    ensures Does(cfg, s, g, DrainMoves(n + 1), t)
  {
    var u := ReceiveThenWrite(cfg, s, g, f);
    DoesTwo(cfg, s, g, Receive, Write, DrainMoves(n), u, AfterOne(s, f), t);
  }

  lemma AfterOneInRange(s: Pool, f: nat)
    requires InRange(s) && f < |s.states| && s.states[f].buffer != []
    ensures InRange(AfterOne(s, f)) && |AfterOne(s, f).states[f].buffer| == |s.states[f].buffer| - 1
  {
  }

  /** An undisturbed drain is a sequence of the pool's steps. */
  lemma {:induction false} DrainIsMoves(cfg: Config, s: Pool, g: nat, f: nat, n: nat)
    requires InRange(s) && g in s.routines && s.routines[g] == Draining(f) && n == |s.states[f].buffer|
    ensures Does(cfg, s, g, DrainMoves(n), AfterDrain(s, g, f))
    decreases n
  {
    if n == 0 {
      DrainEmpty(cfg, s, g, f);
    } else {
      AfterOneInRange(s, f);
      DrainIsMoves(cfg, AfterOne(s, f), g, f, n - 1);
      AfterOneDrains(s, g, f);
      DrainOne(cfg, s, g, f, n - 1, AfterDrain(s, g, f));
    }
  }

  /** The pool after judging the file at `path` idle and dropping it. */
  ghost function Forgotten(s: Pool, path: string): Pool
    requires path in s.files
  {
    s.(files := s.files - {path}, strayed := s.strayed || Held(s, s.files[path]))
  }

  ghost predicate Evicts(s: Pool, t: Pool) {
    exists path :: path in s.files && s.files[path] < |s.states| && Quiet(s.states[s.files[path]])
      && t == Forgotten(s, path)
  }

  /** An eviction is the evictor's two steps one after the other. */
  lemma EvictionIsTwoSteps(cfg: Config, s: Pool, path: string)
    requires InRange(s) && Enabled(cfg, s, JudgeIdle(path)) && InRange(Apply(cfg, s, JudgeIdle(path)))
    ensures Apply(cfg, Apply(cfg, s, JudgeIdle(path)), Forget) == Forgotten(s, path)
  {
  }

  lemma EvictionMakesRoom(s: Pool, t: Pool)
    requires InRange(s) && s.judged.None? && Evicts(s, t)
    ensures InRange(t) && |t.files| == |s.files| - 1
    ensures forall p | p in t.files :: p in s.files
  {
    var path :| path in s.files && s.files[path] < |s.states| && Quiet(s.states[s.files[path]])
      && t == Forgotten(s, path);
    assert t.files.Keys == s.files.Keys - {path};
    assert |t.files.Keys| == |s.files.Keys| - 1;
  }

  /** The step that hands goroutine g the state for `path`. */
  function Found(g: nat, path: string, s: Pool): Step {
    if path in s.files then Lookup(g, path) else Create(g, path)
  }
}
