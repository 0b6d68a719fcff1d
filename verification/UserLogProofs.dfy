/** What every step of the user-log pool keeps, and what that means for whole runs. */
module UserLogProofs {
  import opened Common
  import opened UserLogPool

  // A file's own invariant speaks of its state, of the goroutines `at` it, and of the number of
  // `slots` it has in the ready queue.

  /** A goroutine here stands for the file's ready-queue slot outside the queue. */
  predicate Token(pc: Pc) { pc.Pushing? || pc.Undoing? || pc.Popped? }

  predicate Owner(pc: Pc) { pc.Draining? || pc.Writing? || pc.Checking? }

  function Tokens(at: map<nat, Pc>): set<nat> {
    set g | g in at && Token(at[g])
  }

  function Owners(at: map<nat, Pc>): set<nat> {
    set g | g in at && Owner(at[g])
  }

  function Senders(at: map<nat, Pc>): set<nat> {
    set g | g in at && at[g].Sent?
  }

  function Undoers(at: map<nat, Pc>): set<nat> {
    set g | g in at && at[g].Undoing?
  }

  /** The event the file's owner has received and not written yet, if any. */
  ghost function InHand(at: map<nat, Pc>): seq<Event> {
    if exists g | g in at :: at[g].Writing? then
      var g :| g in at && at[g].Writing?;
      [at[g].ev]
    else []
  }

  predicate Balanced(file: File, tokens: int, owners: int, slots: int) {
    slots + tokens == One(file.enqueued) && owners == One(file.owned) && !(file.owned && file.enqueued)
  }

  /** An enqueued file has one slot, an owned file one owner, and no file is both. */
  predicate Counted(file: File, at: map<nat, Pc>, slots: nat) {
    Balanced(file, |Tokens(at)|, |Owners(at)|, slots)
  }

  /** Written, then in hand, then buffered: the accepted events in order. */
  ghost predicate Ordered(file: File, at: map<nat, Pc>) {
    file.accepted == file.written + InHand(at) + file.buffer
  }

  /** Buffered events have a worker, a slot, or a producer about to signal. */
  predicate Wakeful(file: File, at: map<nat, Pc>, refused: bool) {
    && (Undoers(at) != {} ==> refused)
    && (!refused && file.buffer != [] ==> file.owned || file.enqueued || Senders(at) != {})
  }

  ghost predicate FileInv(file: File, at: map<nat, Pc>, slots: nat, refused: bool) {
    Counted(file, at, slots) && Ordered(file, at) && Wakeful(file, at, refused)
  }

  /** The file's goroutines after one that leaves goroutine g at `pc`. */
  function After(at: map<nat, Pc>, g: nat, pc: Option<Pc>): map<nat, Pc> {
    if pc.Some? then at[g := pc.value] else at - {g}
  }

  lemma AfterSets(at: map<nat, Pc>, g: nat, pc: Option<Pc>)
    ensures Tokens(After(at, g, pc)) == Tokens(at) - {g} + if pc.Some? && Token(pc.value) then {g} else {}
    ensures Owners(After(at, g, pc)) == Owners(at) - {g} + if pc.Some? && Owner(pc.value) then {g} else {}
    ensures Senders(After(at, g, pc)) == Senders(at) - {g} + if pc.Some? && pc.value.Sent? then {g} else {}
    ensures Undoers(After(at, g, pc)) == Undoers(at) - {g} + if pc.Some? && pc.value.Undoing? then {g} else {}
  {
  }

  lemma AfterCounts(at: map<nat, Pc>, g: nat, pc: Option<Pc>)
    requires g in at
    ensures |Tokens(After(at, g, pc))| == |Tokens(at)| - One(Token(at[g])) + One(pc.Some? && Token(pc.value))
    ensures |Owners(After(at, g, pc))| == |Owners(at)| - One(Owner(at[g])) + One(pc.Some? && Owner(pc.value))
    ensures Senders(After(at, g, pc)) == Senders(at) - {g} + if pc.Some? && pc.value.Sent? then {g} else {}
    ensures Undoers(After(at, g, pc)) == Undoers(at) - {g} + if pc.Some? && pc.value.Undoing? then {g} else {}
  {
    AfterSets(at, g, pc);
  }

  /** With at most one owner, what is in hand is the owner's. */
  lemma HandOf(at: map<nat, Pc>, g: nat)
    requires Owners(at) <= {g}
    ensures InHand(at) == if g in at && at[g].Writing? then [at[g].ev] else []
  {
    assert forall h | h in at && at[h].Writing? :: h in Owners(at);
  }

  lemma SoleMember(s: set<nat>, g: nat)
    requires g in s && |s| <= 1
    ensures s == {g}
  {
    assert |s - {g}| == 0;
    assert s == {g} + (s - {g});
  }

  /** A goroutine that neither owned nor comes to own the file leaves what is in hand alone. */
  lemma BystanderHand(at: map<nat, Pc>, g: nat, pc: Option<Pc>)
    requires |Owners(at)| <= 1 && g !in Owners(at)
    requires pc.Some? ==> !Owner(pc.value)
    ensures InHand(After(at, g, pc)) == InHand(at)
  {
    AfterSets(at, g, pc);
    var owners := Owners(at);
    assert Owners(After(at, g, pc)) == owners;
    if owners == {} {
      HandOf(at, g);
      HandOf(After(at, g, pc), g);
    } else {
      var h :| h in owners;
      SoleMember(owners, h);
      HandOf(at, h);
      HandOf(After(at, g, pc), h);
    }
  }

  /** The moves of the sole owner, and of the worker about to own an unowned file. */
  lemma OwnerMoveKeepsOrder(cfg: Config, file: File, at: map<nat, Pc>, g: nat, room: bool, move: Move)
    requires Ordered(file, at)
    requires g in at && CanMove(cfg, at[g], file, move) && (Owner(at[g]) || move.Claim?)
    requires Owners(at) <= {g}
    ensures var o := Perform(cfg, at[g], file, room, move);
            Ordered(o.file, After(at, g, o.pc))
  {
    var o := Perform(cfg, at[g], file, room, move);
    HandOf(at, g);
    HandOf(After(at, g, o.pc), g) by {
      AfterSets(at, g, o.pc);
    }
  }

  lemma MoveKeepsOrder(cfg: Config, file: File, at: map<nat, Pc>, slots: nat, g: nat, room: bool, move: Move)
    requires Counted(file, at, slots) && Ordered(file, at)
    requires g in at && CanMove(cfg, at[g], file, move)
    ensures var o := Perform(cfg, at[g], file, room, move);
            Ordered(o.file, After(at, g, o.pc))
  {
    if Owner(at[g]) {
      SoleMember(Owners(at), g);
      OwnerMoveKeepsOrder(cfg, file, at, g, room, move);
    } else if move.Claim? {
      assert g in Tokens(at);
      assert Owners(at) == {};
      OwnerMoveKeepsOrder(cfg, file, at, g, room, move);
    } else {
      BystanderHand(at, g, Perform(cfg, at[g], file, room, move).pc);
    }
  }

  /** A move takes its goroutine's token or ownership along with the flag. */
  lemma MoveBalances(cfg: Config, pc: Pc, file: File, room: bool, move: Move, tokens: nat, owners: nat, slots: nat)
    requires CanMove(cfg, pc, file, move) && Balanced(file, tokens, owners, slots)
    requires One(Token(pc)) <= tokens && One(Owner(pc)) <= owners
    ensures var o := Perform(cfg, pc, file, room, move);
            Balanced(o.file,
                     tokens - One(Token(pc)) + One(o.pc.Some? && Token(o.pc.value)),
                     owners - One(Owner(pc)) + One(o.pc.Some? && Owner(o.pc.value)),
                     slots + One(o.pushed))
  {
  }

  lemma MoveKeepsCounts(cfg: Config, file: File, at: map<nat, Pc>, slots: nat, g: nat, room: bool, move: Move)
    requires Counted(file, at, slots)
    requires g in at && CanMove(cfg, at[g], file, move)
    ensures var o := Perform(cfg, at[g], file, room, move);
            Counted(o.file, After(at, g, o.pc), slots + One(o.pushed))
  {
    assert Token(at[g]) ==> g in Tokens(at);
    assert Owner(at[g]) ==> g in Owners(at);
    MoveBalances(cfg, at[g], file, room, move, |Tokens(at)|, |Owners(at)|, slots);
    AfterCounts(at, g, Perform(cfg, at[g], file, room, move).pc);
  }

  lemma MoveKeepsWakeful(cfg: Config, file: File, at: map<nat, Pc>, slots: nat, refused: bool, g: nat, room: bool,
                         move: Move)
    requires Counted(file, at, slots) && Wakeful(file, at, refused)
    requires g in at && CanMove(cfg, at[g], file, move)
    ensures var o := Perform(cfg, at[g], file, room, move);
            Wakeful(o.file, After(at, g, o.pc), refused || o.refused)
  {
    assert Owner(at[g]) ==> g in Owners(at);
    assert Token(at[g]) ==> g in Tokens(at);
    assert at[g].Undoing? ==> g in Undoers(at);
    AfterSets(at, g, Perform(cfg, at[g], file, room, move).pc);
  }

  lemma MoveKeepsFile(cfg: Config, file: File, at: map<nat, Pc>, slots: nat, refused: bool, g: nat, room: bool,
                      move: Move)
    requires FileInv(file, at, slots, refused)
    requires g in at && CanMove(cfg, at[g], file, move)
    ensures var o := Perform(cfg, at[g], file, room, move);
            FileInv(o.file, After(at, g, o.pc), slots + One(o.pushed), refused || o.refused)
  {
    MoveKeepsCounts(cfg, file, at, slots, g, room, move);
    MoveKeepsOrder(cfg, file, at, slots, g, room, move);
    MoveKeepsWakeful(cfg, file, at, slots, refused, g, room, move);
  }

  // ----- the whole pool -----

  /** The goroutines that have file f in their hands. */
  function At(s: Pool, f: nat): map<nat, Pc> {
    s.routines - (set g | g in s.routines && s.routines[g].f != f)
  }

  function Slots(s: Pool, f: nat): nat { multiset(s.ready)[f] }

  ghost predicate FileOk(s: Pool, f: nat)
    requires f < |s.states|
  {
    FileInv(s.states[f], At(s, f), Slots(s, f), s.refused)
  }

  ghost predicate FilesOk(s: Pool) {
    forall f: nat | f < |s.states| :: FileOk(s, f)
  }

  predicate Bounded(cfg: Config, s: Pool) {
    && |s.files| <= cfg.maxFiles
    && |s.ready| <= cfg.maxFiles
    && (forall f | 0 <= f < |s.states| :: |s.states[f].buffer| <= cfg.depth)
  }

  /** Nothing is buffered in the file, queued for it or held of it. */
  predicate Loose(s: Pool, f: nat)
    requires f < |s.states|
  {
    Quiet(s.states[f]) && At(s, f) == map[]
  }

  /** Unless a held file state was ever dropped, every file state in use is tracked. */
  ghost predicate NoneStray(s: Pool)
    requires InRange(s)
  {
    !s.strayed ==>
      && (forall f: nat | f < |s.states| :: Tracked(s, f) || Loose(s, f))
      && (s.judged.Some? ==> Loose(s, s.files[s.judged.value]))
      && !s.refused
  }

  ghost predicate Inv(cfg: Config, s: Pool) {
    InRange(s) && FilesOk(s) && Bounded(cfg, s) && NoneStray(s)
  }

  /** A step of goroutine g on file f changes who holds f, and nothing for other files. */
  lemma AtFrame(s: Pool, t: Pool, g: nat, f: nat, pc: Option<Pc>)
    requires t.routines == After(s.routines, g, pc)
    requires pc.Some? ==> pc.value.f == f
    requires g in s.routines ==> s.routines[g].f == f
    ensures forall e: nat | e != f :: At(t, e) == At(s, e)
    ensures At(t, f) == After(At(s, f), g, pc)
  {
  }

  /** Files the step from s to t did not touch stay in order; the touched one is given. */
  lemma FilesFrame(s: Pool, t: Pool, f: nat)
    requires FilesOk(s) && (s.refused ==> t.refused)
    requires f < |t.states| && |s.states| <= |t.states| <= |s.states| + 1
    requires forall e: nat | e < |t.states| && e != f ::
               e < |s.states| && t.states[e] == s.states[e] && At(t, e) == At(s, e) && Slots(t, e) == Slots(s, e)
    requires FileOk(t, f)
    ensures FilesOk(t)
  {
    forall e: nat | e < |t.states|
      ensures FileOk(t, e)
    {
      if e != f {
        assert At(t, e) == At(s, e) && Slots(t, e) == Slots(s, e);
        assert FileOk(s, e);
      }
    }
  }

  lemma PushSlots(ready: seq<nat>, f: nat)
    ensures forall e: nat :: multiset(ready + [f])[e] == multiset(ready)[e] + One(e == f)
  {
  }

  lemma PopSlots(ready: seq<nat>)
    requires ready != []
    ensures forall e: nat :: multiset(ready[1..])[e] == multiset(ready)[e] - One(e == ready[0])
  {
    assert ready == [ready[0]] + ready[1..];
  }

  lemma SettleKeepsFiles(s: Pool, g: nat, f: nat, o: Outcome)
    requires FilesOk(s) && f < |s.states| && (g in s.routines ==> s.routines[g].f == f)
    requires o.pc.Some? ==> o.pc.value.f == f
    requires FileInv(o.file, After(At(s, f), g, o.pc), Slots(s, f) + One(o.pushed), s.refused || o.refused)
    ensures FilesOk(Settle(s, g, f, o))
  {
    var t := Settle(s, g, f, o);
    AtFrame(s, t, g, f, o.pc);
    PushSlots(s.ready, f);
    assert FileOk(t, f);
    FilesFrame(s, t, f);
  }

  lemma MoveKeepsFiles(cfg: Config, s: Pool, g: nat, move: Move)
    requires InRange(s) && FilesOk(s) && Enabled(cfg, s, Go(g, move))
    ensures FilesOk(Apply(cfg, s, Go(g, move)))
  {
    var f := s.routines[g].f;
    var room := |s.ready| < cfg.maxFiles;
    assert FileOk(s, f);
    MoveKeepsFile(cfg, s.states[f], At(s, f), Slots(s, f), s.refused, g, room, move);
    SettleKeepsFiles(s, g, f, Perform(cfg, s.routines[g], s.states[f], room, move));
  }

  /** A producer that looks a file up, or a worker that takes its slot from the queue. */
  lemma LookupKeepsFile(file: File, at: map<nat, Pc>, slots: nat, refused: bool, g: nat, pc: Pc)
    requires FileInv(file, at, slots, refused) && g !in at && pc.Holding?
    ensures FileInv(file, After(at, g, Some(pc)), slots, refused)
  {
    AfterSets(at, g, Some(pc));
    BystanderHand(at, g, Some(pc));
  }

  lemma PopKeepsFile(file: File, at: map<nat, Pc>, slots: nat, refused: bool, g: nat, pc: Pc)
    requires FileInv(file, at, slots, refused) && g !in at && pc.Popped? && 0 < slots
    ensures FileInv(file, After(at, g, Some(pc)), slots - 1, refused)
  {
    AfterSets(at, g, Some(pc));
    BystanderHand(at, g, Some(pc));
  }

  lemma EnterKeepsFiles(s: Pool, t: Pool, g: nat, pc: Pc)
    requires InRange(s) && FilesOk(s) && g !in s.routines && pc.f < |s.states|
    requires pc.Holding? || (pc.Popped? && s.ready != [] && pc.f == s.ready[0])
    requires t == s.(routines := s.routines[g := pc], ready := if pc.Popped? then s.ready[1..] else s.ready)
    ensures FilesOk(t)
  {
    AtFrame(s, t, g, pc.f, Some(pc));
    if pc.Popped? {
      PopSlots(s.ready);
    }
    assert FileOk(t, pc.f) by {
      assert FileOk(s, pc.f);
      if pc.Holding? {
        LookupKeepsFile(s.states[pc.f], At(s, pc.f), Slots(s, pc.f), s.refused, g, pc);
      } else {
        PopKeepsFile(s.states[pc.f], At(s, pc.f), Slots(s, pc.f), s.refused, g, pc);
      }
    }
    FilesFrame(s, t, pc.f);
  }

  lemma NewFileOk(file: File, g: nat, f: nat, refused: bool)
    requires Quiet(file) && file.accepted == [] && file.written == []
    ensures FileInv(file, map[g := Holding(f)], 0, refused)
  {
    var at: map<nat, Pc> := map[g := Holding(f)];
    HandOf(at, g);
    assert Tokens(at) == {} && Owners(at) == {} && Undoers(at) == {};
  }

  lemma CreateKeepsFiles(cfg: Config, s: Pool, g: nat, path: string)
    requires InRange(s) && FilesOk(s) && Enabled(cfg, s, Create(g, path))
    ensures FilesOk(Apply(cfg, s, Create(g, path)))
  {
    var t := Apply(cfg, s, Create(g, path));
    var f := |s.states|;
    AtFrame(s, t, g, f, Some(Holding(f)));
    assert At(t, f) == map[g := Holding(f)] && Slots(t, f) == 0;
    NewFileOk(t.states[f], g, f, s.refused);
    FilesFrame(s, t, f);
  }

  lemma ShutSignalKeepsFiles(cfg: Config, s: Pool, path: string)
    requires InRange(s) && FilesOk(s) && Enabled(cfg, s, ShutSignal(path))
    ensures FilesOk(Apply(cfg, s, ShutSignal(path)))
  {
    var t := Apply(cfg, s, ShutSignal(path));
    var f := s.files[path];
    if t != s {
      PushSlots(s.ready, f);
      assert FileOk(t, f) by {
        assert FileOk(s, f);
        assert At(t, f) == At(s, f);
      }
      FilesFrame(s, t, f);
    }
  }

  lemma SettleRange(s: Pool, g: nat, f: nat, o: Outcome)
    requires InRange(s) && f < |s.states|
    requires o.pc.Some? ==> o.pc.value.f == f
    requires o.file.path == s.states[f].path
    ensures InRange(Settle(s, g, f, o))
  {
  }

  lemma KeepsRange(cfg: Config, s: Pool, step: Step)
    requires InRange(s) && Enabled(cfg, s, step)
    ensures InRange(Apply(cfg, s, step))
  {
    match step
    case Go(g, move) =>
      var pc := s.routines[g];
      SettleRange(s, g, pc.f, Perform(cfg, pc, s.states[pc.f], |s.ready| < cfg.maxFiles, move));
    case _ =>
  }

  lemma KeepsFiles(cfg: Config, s: Pool, step: Step)
    requires InRange(s) && FilesOk(s) && Enabled(cfg, s, step)
    ensures FilesOk(Apply(cfg, s, step))
  {
    var t := Apply(cfg, s, step);
    match step
    case Lookup(g, path) => EnterKeepsFiles(s, t, g, Holding(s.files[path]));
    case Create(g, path) => CreateKeepsFiles(cfg, s, g, path);
    case Pop(g) => EnterKeepsFiles(s, t, g, Popped(s.ready[0]));
    case Go(g, move) => MoveKeepsFiles(cfg, s, g, move);
    case ShutSignal(path) => ShutSignalKeepsFiles(cfg, s, path);
    case JudgeIdle(_) => SameFiles(s, t);
    case Forget => SameFiles(s, t);
    case Shut => SameFiles(s, t);
  }

  lemma SameFiles(s: Pool, t: Pool)
    requires FilesOk(s) && t.states == s.states && t.ready == s.ready && t.routines == s.routines
             && t.refused == s.refused
    ensures FilesOk(t)
  {
    forall f: nat | f < |t.states|
      ensures FileOk(t, f)
    {
      assert FileOk(s, f);
      assert At(t, f) == At(s, f);
    }
  }

  lemma KeepsBounds(cfg: Config, s: Pool, step: Step)
    requires InRange(s) && Bounded(cfg, s) && Enabled(cfg, s, step)
    ensures Bounded(cfg, Apply(cfg, s, step))
  {
    match step
    case Create(g, path) => CreateKeepsBounds(cfg, s, g, path);
    case Go(g, move) =>
      var pc := s.routines[g];
      PerformBounds(cfg, pc, s.states[pc.f], |s.ready| < cfg.maxFiles, move);
      MoveKeepsBounds(cfg, s, g, Perform(cfg, pc, s.states[pc.f], |s.ready| < cfg.maxFiles, move));
    case ShutSignal(path) => ShutSignalKeepsBounds(cfg, s, path);
    case Forget => assert s.files.Keys - {s.judged.value} == Apply(cfg, s, step).files.Keys;
    case _ =>
  }

  lemma PerformBounds(cfg: Config, pc: Pc, file: File, room: bool, move: Move)
    requires CanMove(cfg, pc, file, move) && |file.buffer| <= cfg.depth
    ensures var o := Perform(cfg, pc, file, room, move); |o.file.buffer| <= cfg.depth && (o.pushed ==> room)
  {
  }

  lemma CreateKeepsBounds(cfg: Config, s: Pool, g: nat, path: string)
    requires InRange(s) && Bounded(cfg, s) && Enabled(cfg, s, Create(g, path))
    ensures Bounded(cfg, Apply(cfg, s, Create(g, path)))
  {
    OneMore(s.files, path, |s.states|);
  }

  lemma OneMore(files: map<string, nat>, path: string, f: nat)
    requires path !in files
    ensures |files[path := f]| == |files| + 1
  {
    assert files[path := f].Keys == files.Keys + {path};
    assert |files[path := f].Keys| == |files.Keys| + 1;
  }

  lemma ShutSignalKeepsBounds(cfg: Config, s: Pool, path: string)
    requires InRange(s) && Bounded(cfg, s) && Enabled(cfg, s, ShutSignal(path))
    ensures Bounded(cfg, Apply(cfg, s, ShutSignal(path)))
  {
  }

  lemma MoveKeepsBounds(cfg: Config, s: Pool, g: nat, o: Outcome)
    requires InRange(s) && Bounded(cfg, s) && g in s.routines
    requires |o.file.buffer| <= cfg.depth && (o.pushed ==> |s.ready| < cfg.maxFiles)
    ensures Bounded(cfg, Settle(s, g, s.routines[g].f, o))
  {
  }

  /** Distinct file ids, each tracked under some path, are no more than the paths. */
  lemma {:induction false} Pigeonhole(ids: seq<nat>, files: map<string, nat>)
    requires forall x: nat :: multiset(ids)[x] <= 1
    requires forall x | x in ids :: exists p | p in files :: files[p] == x
    ensures |ids| <= |files|
  {
    if ids != [] {
      var last := ids[|ids| - 1];
      var rest: seq<nat> := ids[..|ids| - 1];
      assert ids == rest + [last] && last in ids;
      var p :| p in files && files[p] == last;
      var others := files - {p};
      assert multiset(ids) == multiset(rest) + multiset{last};
      forall x | x in rest
        ensures exists q | q in others :: others[q] == x
      {
        assert multiset(rest)[x] >= 1 && multiset(ids)[last] <= 1;
        assert x != last;
        assert x in ids;
        var q :| q in files && files[q] == x;
        assert q in others && others[q] == x;
      }
      forall x: nat
        ensures multiset(rest)[x] <= 1
      {
        assert multiset(ids)[x] <= 1;
      }
      Pigeonhole(rest, others);
      assert others.Keys == files.Keys - {p};
    }
  }

  /** A producer that must push finds room if its file and the queued ones are all tracked. */
  lemma RoomForTracked(cfg: Config, s: Pool, g: nat)
    requires InRange(s) && FilesOk(s) && Bounded(cfg, s)
    requires g in s.routines && s.routines[g].Pushing?
    requires forall x | x in s.ready + [s.routines[g].f] :: Tracked(s, x)
    ensures |s.ready| < cfg.maxFiles
  {
    var f := s.routines[g].f;
    assert FileOk(s, f);
    assert g in Tokens(At(s, f));
    var ids: seq<nat> := s.ready + [f];
    PushSlots(s.ready, f);
    forall x: nat
      ensures multiset(ids)[x] <= 1
    {
      if x in ids {
        assert FileOk(s, x);
      }
    }
    forall x | x in ids
      ensures exists p | p in s.files :: s.files[p] == x
    {
      assert s.files[s.states[x].path] == x;
    }
    Pigeonhole(ids, s.files);
  }

  /** A producer that must push always finds room, unless a held file state was dropped. */
  lemma RoomToPush(cfg: Config, s: Pool, g: nat)
    requires Inv(cfg, s) && !s.strayed
    requires g in s.routines && s.routines[g].Pushing?
    ensures |s.ready| < cfg.maxFiles
  {
    var f := s.routines[g].f;
    forall x | x in s.ready + [f]
      ensures Tracked(s, x)
    {
      assert FileOk(s, x);
      assert g in At(s, f);
      assert x != f ==> Slots(s, x) >= 1;
    }
    RoomForTracked(cfg, s, g);
  }

  /** A step that touches only the tracked file f, which is not being judged. */
  lemma StrayFrame(s: Pool, t: Pool, f: nat)
    requires InRange(s) && InRange(t) && NoneStray(s)
    requires t.strayed == s.strayed && t.judged == s.judged && |s.states| <= |t.states|
    requires !s.strayed ==> !t.refused
    requires forall p | p in s.files :: p in t.files && t.files[p] == s.files[p]
    requires forall e: nat | e < |t.states| && e != f ::
               At(t, e) == At(s, e) && e < |s.states| && t.states[e] == s.states[e]
    requires Tracked(t, f)
    requires !s.strayed && s.judged.Some? ==> s.files[s.judged.value] != f
    ensures NoneStray(t)
  {
    if !s.strayed {
      forall e: nat | e < |t.states|
        ensures Tracked(t, e) || Loose(t, e)
      {
        if e != f {
          assert At(t, e) == At(s, e);
          assert Tracked(s, e) || Loose(s, e);
        }
      }
    }
  }

  /** A file state somebody holds or that has a slot is tracked and not being judged. */
  lemma BusyIsTracked(cfg: Config, s: Pool, f: nat)
    requires Inv(cfg, s) && !s.strayed && f < |s.states|
    requires At(s, f) != map[] || Slots(s, f) > 0
    ensures Tracked(s, f) && (s.judged.Some? ==> s.files[s.judged.value] != f)
  {
    assert FileOk(s, f);
  }

  lemma MoveKeepsNoneStray(cfg: Config, s: Pool, g: nat, move: Move)
    requires Inv(cfg, s) && Enabled(cfg, s, Go(g, move)) && !s.strayed
    requires InRange(Apply(cfg, s, Go(g, move)))
    ensures NoneStray(Apply(cfg, s, Go(g, move)))
  {
    var t := Apply(cfg, s, Go(g, move));
    var pc := s.routines[g];
    var o := Perform(cfg, pc, s.states[pc.f], |s.ready| < cfg.maxFiles, move);
    assert o.pc.Some? ==> o.pc.value.f == pc.f;
    if move.Push? {
      RoomToPush(cfg, s, g);
    }
    assert g in At(s, pc.f);
    BusyIsTracked(cfg, s, pc.f);
    AtFrame(s, t, g, pc.f, o.pc);
    StrayFrame(s, t, pc.f);
  }

  lemma EnterKeepsNoneStray(cfg: Config, s: Pool, t: Pool, g: nat, pc: Pc)
    requires Inv(cfg, s) && InRange(t) && g !in s.routines && !s.strayed
    requires Tracked(s, pc.f) && (s.judged.Some? ==> s.files[s.judged.value] != pc.f)
    requires t == s.(routines := s.routines[g := pc], ready := t.ready)
    ensures NoneStray(t)
  {
    AtFrame(s, t, g, pc.f, Some(pc));
    StrayFrame(s, t, pc.f);
  }

  lemma UnheldAt(s: Pool, f: nat)
    requires !Held(s, f)
    ensures At(s, f) == map[]
  {
    forall g | g in s.routines
      ensures g !in At(s, f)
    {
      assert s.routines[g].f != f;
    }
  }

  lemma ManagerKeepsNoneStray(cfg: Config, s: Pool, step: Step)
    requires Inv(cfg, s) && Enabled(cfg, s, step) && InRange(Apply(cfg, s, step)) && !s.strayed
    requires step.JudgeIdle? || step.Forget? || step.Shut? || step.ShutSignal?
    ensures NoneStray(Apply(cfg, s, step))
  {
    var t := Apply(cfg, s, step);
    forall e: nat | e < |t.states|
      ensures Tracked(t, e) || Loose(t, e)
    {
      assert At(t, e) == At(s, e);
      assert Tracked(s, e) || Loose(s, e);
    }
    if step.JudgeIdle? && !t.strayed {
      UnheldAt(s, s.files[step.path]);
    }
  }

  lemma CreateKeepsNoneStray(cfg: Config, s: Pool, g: nat, path: string)
    requires Inv(cfg, s) && Enabled(cfg, s, Create(g, path)) && InRange(Apply(cfg, s, Create(g, path))) && !s.strayed
    ensures NoneStray(Apply(cfg, s, Create(g, path)))
  {
    var t := Apply(cfg, s, Create(g, path));
    AtFrame(s, t, g, |s.states|, Some(Holding(|s.states|)));
    StrayFrame(s, t, |s.states|);
  }

  lemma PopKeepsNoneStray(cfg: Config, s: Pool, g: nat)
    requires Inv(cfg, s) && Enabled(cfg, s, Pop(g)) && InRange(Apply(cfg, s, Pop(g))) && !s.strayed
    ensures NoneStray(Apply(cfg, s, Pop(g)))
  {
    var f := s.ready[0];
    assert Slots(s, f) > 0;
    BusyIsTracked(cfg, s, f);
    EnterKeepsNoneStray(cfg, s, Apply(cfg, s, Pop(g)), g, Popped(f));
  }

  lemma KeepsNoneStray(cfg: Config, s: Pool, step: Step)
    requires Inv(cfg, s) && Enabled(cfg, s, step) && InRange(Apply(cfg, s, step))
    ensures NoneStray(Apply(cfg, s, step))
  {
    var t := Apply(cfg, s, step);
    if !s.strayed {
      match step
      case Lookup(g, path) => EnterKeepsNoneStray(cfg, s, t, g, Holding(s.files[path]));
      case Create(g, path) => CreateKeepsNoneStray(cfg, s, g, path);
      case Pop(g) => PopKeepsNoneStray(cfg, s, g);
      case Go(g, move) => MoveKeepsNoneStray(cfg, s, g, move);
      case _ => ManagerKeepsNoneStray(cfg, s, step);
    }
  }

  /** Every step of every goroutine keeps the pool's invariant. */
  lemma StepKeepsInv(cfg: Config, s: Pool, step: Step)
    requires Inv(cfg, s) && Enabled(cfg, s, step)
    ensures Inv(cfg, Apply(cfg, s, step))
  {
    KeepsRange(cfg, s, step);
    KeepsFiles(cfg, s, step);
    KeepsBounds(cfg, s, step);
    KeepsNoneStray(cfg, s, step);
  }

  // ----- whole runs -----

  /** The pool a fresh manager reaches by the given interleaving; None if some step is not possible. */
  function Run(cfg: Config, steps: seq<Step>): Option<Pool> {
    if steps == [] then Some(EMPTY)
    else
      var before := Run(cfg, steps[..|steps| - 1]);
      var step := steps[|steps| - 1];
      if before.Some? && InRange(before.value) && Enabled(cfg, before.value, step)
      then Some(Apply(cfg, before.value, step))
      else None
  }

  lemma {:induction false} RunKeepsInv(cfg: Config, steps: seq<Step>)
    requires Run(cfg, steps).Some?
    ensures Inv(cfg, Run(cfg, steps).value)
  {
    if steps == [] {
    } else {
      RunKeepsInv(cfg, steps[..|steps| - 1]);
      StepKeepsInv(cfg, Run(cfg, steps[..|steps| - 1]).value, steps[|steps| - 1]);
    }
  }

  /** Some interleaving leads to s. */
  ghost predicate Reachable(cfg: Config, s: Pool) { exists steps: seq<Step> :: Run(cfg, steps) == Some(s) }

  lemma ReachableInv(cfg: Config, s: Pool)
    requires Reachable(cfg, s)
    ensures Inv(cfg, s)
  {
    var steps: seq<Step> :| Run(cfg, steps) == Some(s);
    RunKeepsInv(cfg, steps);
  }

  lemma ReachableFile(cfg: Config, s: Pool, f: nat)
    requires Reachable(cfg, s) && f < |s.states|
    ensures FileOk(s, f)
  {
    ReachableInv(cfg, s);
  }

  /** In every interleaving, what a file wrote, then the event its worker has in hand, then its
      buffer, are exactly the events its producers had accepted, in their order. */
  lemma ExactlyOnceInOrder(cfg: Config, s: Pool, f: nat)
    requires Reachable(cfg, s) && f < |s.states|
    ensures s.states[f].accepted == s.states[f].written + InHand(At(s, f)) + s.states[f].buffer
  {
    ReachableFile(cfg, s, f);
  }

  /** In every interleaving a file has at most one owner and at most one ready-queue slot,
      never both, and the tracked files stay within the cap. */
  lemma SingleOwnerAndSlot(cfg: Config, s: Pool, f: nat, g: nat, h: nat)
    requires Reachable(cfg, s) && f < |s.states|
    ensures g in Owners(At(s, f)) && h in Owners(At(s, f)) ==> g == h
    ensures g in Tokens(At(s, f)) && h in Tokens(At(s, f)) ==> g == h
    ensures Slots(s, f) + |Tokens(At(s, f))| <= 1
    ensures Owners(At(s, f)) != {} ==> Slots(s, f) == 0 && Tokens(At(s, f)) == {}
    ensures |s.files| <= cfg.maxFiles && |s.states[f].buffer| <= cfg.depth
  {
    ReachableInv(cfg, s);
    assert FileOk(s, f);
    if g in Owners(At(s, f)) {
      SoleMember(Owners(At(s, f)), g);
    }
    if g in Tokens(At(s, f)) {
      SoleMember(Tokens(At(s, f)), g);
    }
  }

  /** No lost wakeup: buffered events always have a worker, a slot, or a producer about to signal,
      as long as the ready queue has refused no push. */
  lemma NoLostWakeup(cfg: Config, s: Pool, f: nat)
    requires Reachable(cfg, s) && f < |s.states| && !s.refused && s.states[f].buffer != []
    ensures Owners(At(s, f)) != {} || Slots(s, f) == 1 || Tokens(At(s, f)) != {} || Senders(At(s, f)) != {}
  {
    ReachableFile(cfg, s, f);
  }

  /** A pool at rest (no goroutine mid-operation, nothing ready) has written all it accepted. */
  lemma QuiescentPoolWroteAll(cfg: Config, s: Pool, f: nat)
    requires Reachable(cfg, s) && f < |s.states|
    requires s.routines == map[] && s.ready == [] && !s.refused
    ensures s.states[f].written == s.states[f].accepted
  {
    ExactlyOnceInOrder(cfg, s, f);
    if s.states[f].buffer != [] {
      NoLostWakeup(cfg, s, f);
    }
    assert At(s, f) == map[];
    HandOf(At(s, f), 0);
  }

  /** In any reachable state a producer that has its file can send, or, if it may not wait, gives the
      event up exactly when it cannot. */
  lemma DroppedOnlyWhenFull(cfg: Config, s: Pool, g: nat, ev: Event)
    requires Reachable(cfg, s) && g in s.routines && s.routines[g].Holding?
    ensures InRange(s)
    ensures var room := |s.states[s.routines[g].f].buffer| < cfg.depth;
            (Enabled(cfg, s, Go(g, Send(ev))) <==> room) && (Enabled(cfg, s, Go(g, GiveUp(false))) <==> !room)
  {
    ReachableInv(cfg, s);
  }

  /** At shutdown a tracked file that has events and neither owner nor slot can be signalled once more:
      it gets a slot unless the ready queue is full, and nothing else changes. */
  lemma ShutdownSignalsAgain(cfg: Config, s: Pool, path: string)
    requires Reachable(cfg, s) && s.closing && s.judged.None? && path in s.files
    ensures InRange(s)
    ensures var f := s.files[path];
            var file := s.states[f];
            var stuck := file.buffer != [] && !file.owned && !file.enqueued;
            && (Enabled(cfg, s, ShutSignal(path)) <==> stuck)
            && (stuck ==>
                  var t := Apply(cfg, s, ShutSignal(path));
                  && t.routines == s.routines && t.files == s.files
                  && if |s.ready| >= cfg.maxFiles then t == s
                     else t.ready == s.ready + [f] && t.states == s.states[f := file.(enqueued := true)])
  {
    ReachableInv(cfg, s);
  }

  /** In any reachable state, whatever was dropped before, a push is refused exactly when the ready
      queue is full, and that takes a file state that is queued, or being pushed, and no longer
      tracked. So a push is accepted whenever the pushed and the queued states are all tracked. */
  lemma PushRefusedExactly(cfg: Config, s: Pool, g: nat)
    requires Reachable(cfg, s) && g in s.routines && s.routines[g].Pushing?
    ensures InRange(s) && Enabled(cfg, s, Go(g, Push))
    ensures var t := Apply(cfg, s, Go(g, Push));
            var refusal := g in t.routines && t.routines[g].Undoing?;
            && (refusal <==> |s.ready| == cfg.maxFiles)
            && (refusal ==> t.refused && exists x :: x in s.ready + [s.routines[g].f] && !Tracked(s, x))
            && (!refusal ==> t.ready == s.ready + [s.routines[g].f] && t.refused == s.refused)
  {
    ReachableInv(cfg, s);
    if |s.ready| == cfg.maxFiles && forall x | x in s.ready + [s.routines[g].f] :: Tracked(s, x) {
      RoomForTracked(cfg, s, g);
    }
  }

  /** The ready queue refuses no push in a run that drops no held file state. */
  lemma NeverRefused(cfg: Config, s: Pool)
    requires Reachable(cfg, s) && !s.strayed
    ensures !s.refused
  {
    ReachableInv(cfg, s);
  }

  /** In such a run a log path has at most one writer, however many file states it went through. */
  lemma OneWriterPerPath(cfg: Config, s: Pool, e: nat, f: nat, g: nat, h: nat)
    requires Reachable(cfg, s) && !s.strayed && e < |s.states| && f < |s.states|
    requires g in Owners(At(s, e)) && h in Owners(At(s, f)) && s.states[e].path == s.states[f].path
    ensures e == f && g == h
  {
    ReachableInv(cfg, s);
    assert Tracked(s, e) && Tracked(s, f);
    SingleOwnerAndSlot(cfg, s, f, g, h);
  }

  // ----- the hypothesis on dropped file states is needed -----

  /** P holds of a fresh pool and is kept by every step. */
  ghost predicate Closed(cfg: Config, P: Pool -> bool) {
    P(EMPTY) && forall s, step | P(s) && InRange(s) && Enabled(cfg, s, step) :: P(Apply(cfg, s, step))
  }

  function Queued(path: string, ev: Event): File { File(path, [] + [ev], false, true, [] + [ev], []) }

  /** At rest with n file states on the ready queue, none of them tracked any more. */
  function Crowded(path: string, ev: Event, n: nat): Pool {
    if n == 0 then EMPTY
    else
      var s := Crowded(path, ev, n - 1);
      s.(states := s.states + [Queued(path, ev)], ready := s.ready + [n - 1], strayed := true)
  }

  /** One more file state, dropped while its producer, goroutine 1, held it. */
  function Dropped(s: Pool, file: File, pc: Pc): Pool {
    s.(states := s.states + [file], routines := s.routines[1 := pc], strayed := true)
  }

  /** Nothing is tracked, goroutine 1 is idle and nobody has the manager lock. */
  predicate Untracked(s: Pool) {
    InRange(s) && s.files == map[] && 1 !in s.routines && s.judged.None? && !s.closing
  }

  lemma ReachMove(cfg: Config, P: Pool -> bool, s: Pool, g: nat, move: Move, t: Pool)
    requires Closed(cfg, P) && P(s) && InRange(s) && Enabled(cfg, s, Go(g, move))
    requires var f := s.routines[g].f;
             var o := Perform(cfg, s.routines[g], s.states[f], |s.ready| < cfg.maxFiles, move);
             && t.states == s.states[f := o.file]
             && t.routines == (if o.pc.Some? then s.routines[g := o.pc.value] else s.routines - {g})
             && t.ready == (if o.pushed then s.ready + [f] else s.ready)
             && t == s.(states := t.states, routines := t.routines, ready := t.ready, refused := s.refused || o.refused)
    ensures P(t)
  {
    assert t == Apply(cfg, s, Go(g, move));
  }

  lemma ReachHeld(cfg: Config, P: Pool -> bool, s: Pool, p: string)
    requires Closed(cfg, P) && P(s) && Untracked(s) && cfg.maxFiles >= 1
    ensures P(Dropped(s, File(p, [], false, false, [], []), Holding(|s.states|)))
  {
    var f := |s.states|;
    var s1 := s.(states := s.states + [File(p, [], false, false, [], [])], files := map[p := f],
                 routines := s.routines[1 := Holding(f)]);
    var s2 := s1.(judged := Some(p), strayed := true);
    assert P(s1) by { assert Apply(cfg, s, Create(1, p)) == s1; }
    assert P(s2) by {
      assert 1 in s1.routines && s1.routines[1].f == f;
      assert Apply(cfg, s1, JudgeIdle(p)) == s2;
    }
    assert Apply(cfg, s2, Forget) == Dropped(s, File(p, [], false, false, [], []), Holding(f));
  }

  /** The producer sends and signals, and is about to push. */
  lemma ReachPushing(cfg: Config, P: Pool -> bool, s: Pool, p: string, ev: Event)
    requires Closed(cfg, P) && P(s) && Untracked(s) && cfg.maxFiles >= 1 && cfg.depth >= 1
    ensures P(Dropped(s, Queued(p, ev), Pushing(|s.states|)))
  {
    var f := |s.states|;
    ReachHeld(cfg, P, s, p);
    var s1 := Dropped(s, File(p, [], false, false, [], []), Holding(f));
    var s2 := Dropped(s, Queued(p, ev).(enqueued := false), Sent(f));
    assert P(s2) by { ReachMove(cfg, P, s1, 1, Send(ev), s2); }
    ReachMove(cfg, P, s2, 1, Signal, Dropped(s, Queued(p, ev), Pushing(f)));
  }

  lemma {:induction false} CrowdedIsUntracked(p: string, ev: Event, n: nat)
    ensures Untracked(Crowded(p, ev, n)) && Crowded(p, ev, n).routines == map[] && |Crowded(p, ev, n).states| == n
            && |Crowded(p, ev, n).ready| == n
    ensures forall x | x in Crowded(p, ev, n).ready :: x < n
  {
    if n > 0 {
      CrowdedIsUntracked(p, ev, n - 1);
    }
  }

  lemma {:induction false} ReachCrowded(cfg: Config, P: Pool -> bool, p: string, ev: Event, n: nat)
    requires Closed(cfg, P) && cfg.depth >= 1 && n <= cfg.maxFiles
    ensures P(Crowded(p, ev, n))
  {
    if n > 0 {
      var s := Crowded(p, ev, n - 1);
      ReachCrowded(cfg, P, p, ev, n - 1);
      CrowdedIsUntracked(p, ev, n - 1);
      ReachPushing(cfg, P, s, p, ev);
      var s1 := Dropped(s, Queued(p, ev), Pushing(n - 1));
      ReachMove(cfg, P, s1, 1, Push, Crowded(p, ev, n));
    }
  }

  /** With the ready queue full of such states one more push is refused and undone. */
  function Stranded(cfg: Config, p: string, ev: Event): Pool {
    var s := Crowded(p, ev, cfg.maxFiles);
    s.(states := s.states + [Queued(p, ev).(enqueued := false)], refused := true, strayed := true)
  }

  lemma ReachStranded(cfg: Config, P: Pool -> bool, p: string, ev: Event)
    requires Closed(cfg, P) && cfg.maxFiles >= 1 && cfg.depth >= 1
    ensures P(Stranded(cfg, p, ev))
  {
    var n := cfg.maxFiles;
    var s := Crowded(p, ev, n);
    ReachCrowded(cfg, P, p, ev, n);
    CrowdedIsUntracked(p, ev, n);
    ReachPushing(cfg, P, s, p, ev);
    var s1 := Dropped(s, Queued(p, ev), Pushing(n));
    var s2 := Dropped(s, Queued(p, ev), Undoing(n)).(refused := true);
    assert P(s2) by { ReachMove(cfg, P, s1, 1, Push, s2); }
    ReachMove(cfg, P, s2, 1, Undo, Stranded(cfg, p, ev));
  }

  lemma ReachableClosed(cfg: Config)
    ensures Closed(cfg, s => Reachable(cfg, s))
  {
    assert Run(cfg, []) == Some(EMPTY);
    forall s, step | Reachable(cfg, s) && InRange(s) && Enabled(cfg, s, step)
      ensures Reachable(cfg, Apply(cfg, s, step))
    {
      var steps: seq<Step> :| Run(cfg, steps) == Some(s);
      var all := steps + [step];
      assert all[..|all| - 1] == steps && all[|all| - 1] == step;
      assert Run(cfg, all) == Some(Apply(cfg, s, step));
    }
  }

  /** Whatever the cap, dropping file states that a producer has looked up but not sent to yet can
      fill the ready queue with states no longer tracked. The next push is refused, and its file then
      stays buffered, with no owner, no slot, nobody about to signal it and no path leading to it. */
  lemma DroppingHeldFilesCanStrandEvents(cfg: Config, p: string, ev: Event) returns (s: Pool)
    requires cfg.maxFiles >= 1 && cfg.depth >= 1
    ensures Reachable(cfg, s)
    ensures s.refused && s.routines == map[] && s.files == map[] && |s.states| == cfg.maxFiles + 1
    ensures cfg.maxFiles !in s.ready && s.states[cfg.maxFiles].buffer == [ev]
    ensures !s.states[cfg.maxFiles].owned && !s.states[cfg.maxFiles].enqueued
  {
    ReachableClosed(cfg);
    s := Stranded(cfg, p, ev);
    ReachStranded(cfg, s => Reachable(cfg, s), p, ev);
    CrowdedIsUntracked(p, ev, cfg.maxFiles);
  }

  /** One more file state, dropped likewise, whose event worker w is writing. */
  function Written(s: Pool, p: string, ev: Event, w: nat): Pool {
    s.(states := s.states + [File(p, [], true, false, [] + [ev], [])],
       routines := s.routines[w := Writing(|s.states|, ev)], strayed := true)
  }

  lemma ReachQueued(cfg: Config, P: Pool -> bool, s: Pool, p: string, ev: Event)
    requires Closed(cfg, P) && P(s) && Untracked(s) && s.ready == [] && cfg.maxFiles >= 1 && cfg.depth >= 1
    ensures P(s.(states := s.states + [Queued(p, ev)], ready := [] + [|s.states|], strayed := true))
  {
    var f := |s.states|;
    ReachPushing(cfg, P, s, p, ev);
    var s1 := Dropped(s, Queued(p, ev), Pushing(f));
    var s2 := s.(states := s.states + [Queued(p, ev)], ready := [] + [f], strayed := true);
    assert s2.routines == s1.routines - {1};
    ReachMove(cfg, P, s1, 1, Push, s2);
  }

  /** The producer pushes, and the worker takes the state from the queue, claims it and receives. */
  lemma ReachWriting(cfg: Config, P: Pool -> bool, s: Pool, p: string, ev: Event, w: nat)
    requires Closed(cfg, P) && P(s) && Untracked(s) && s.ready == [] && cfg.maxFiles >= 1 && cfg.depth >= 1
    requires w !in s.routines
    ensures P(Written(s, p, ev, w))
  {
    var f := |s.states|;
    var file := Queued(p, ev);
    var s1 := s.(states := s.states + [file], ready := [] + [f], strayed := true);
    var s2 := s1.(ready := [], routines := s.routines[w := Popped(f)]);
    var s3 := s2.(states := s.states + [file.(enqueued := false, owned := true)],
                  routines := s.routines[w := Draining(f)]);
    ReachQueued(cfg, P, s, p, ev);
    assert P(s2) by { assert Apply(cfg, s1, Pop(w)) == s2; }
    assert P(s3) by { ReachMove(cfg, P, s2, w, Claim, s3); }
    assert file.buffer[1..] == [];
    ReachMove(cfg, P, s3, w, Receive, Written(s, p, ev, w));
  }

  function TwoWriters(p: string, a: Event, b: Event): Pool { Written(Written(EMPTY, p, a, 3), p, b, 4) }

  lemma ReachTwoWriters(cfg: Config, P: Pool -> bool, p: string, a: Event, b: Event)
    requires Closed(cfg, P) && cfg.maxFiles >= 1 && cfg.depth >= 1
    ensures P(TwoWriters(p, a, b))
  {
    ReachWriting(cfg, P, EMPTY, p, a, 3);
    ReachWriting(cfg, P, Written(EMPTY, p, a, 3), p, b, 4);
  }

  /** Whatever the cap, dropping a held file state can give one log path two writers at once: two
      workers each with an event in hand for the same path. */
  lemma DroppingHeldFilesCanGiveTwoWriters(cfg: Config, p: string, a: Event, b: Event) returns (s: Pool)
    requires cfg.maxFiles >= 1 && cfg.depth >= 1
    ensures Reachable(cfg, s)
    ensures |s.states| == 2 && s.states[0].path == p && s.states[1].path == p
    ensures s.routines == map[3 := Writing(0, a), 4 := Writing(1, b)]
    ensures 3 in Owners(At(s, 0)) && 4 in Owners(At(s, 1))
  {
    s := TwoWriters(p, a, b);
    ReachableClosed(cfg);
    ReachTwoWriters(cfg, s => Reachable(cfg, s), p, a, b);
  }
}
