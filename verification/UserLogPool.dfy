/**
 The user-log writer pool as a transition system. Every mutex section and every
 channel operation of the source is one step, so a sequence of steps is one
 interleaving of producers, workers, the reaper and the evictor.

 A goroutine that is between two steps of an operation has an entry in `routines`;
 an idle producer or a worker waiting on the ready queue has none. `accepted` and
 `written` record, per file state, the events its buffer took and the events that
 reached the log, in order. `refused` records that the ready queue ever refused a
 push, `strayed` that a file state was ever dropped from `files` although a
 goroutine still held it.
 */
module UserLogPool {
  import opened Common

  datatype Event = Event(cluster: int, proc: int, record: string)

  datatype File = File(
    path: string,
    buffer: seq<Event>,
    owned: bool,
    enqueued: bool,
    accepted: seq<Event>,
    written: seq<Event>)

  /** Where a goroutine stands; `f` is the file state it has in its hands. */
  datatype Pc =
    | Holding(f: nat)             // producer: fileFor returned, not sent yet
    | Sent(f: nat)                // producer: event buffered, signal lock not taken yet
    | Pushing(f: nat)             // producer: set enqueued, not pushed yet
    | Undoing(f: nat)             // producer: push refused, flag not cleared yet
    | Popped(f: nat)              // worker: took the token, ownership lock not taken yet
    | Draining(f: nat)            // worker: owns the file, about to receive
    | Writing(f: nat, ev: Event)  // worker: owns the file, has an event in hand
    | Checking(f: nat)            // worker: owns the file, found the buffer empty

  datatype Config = Config(maxFiles: nat, depth: nat)

  datatype Pool = Pool(
    files: map<string, nat>,
    states: seq<File>,
    ready: seq<nat>,
    routines: map<nat, Pc>,
    judged: Option<string>,  // path found idle by the holder of the manager lock
    closing: bool,
    refused: bool,
    strayed: bool)

  /** One mutex section or channel operation of a goroutine that has a file in its hands. */
  datatype Move = Send(ev: Event) | GiveUp(blocking: bool) | Signal | Push | Undo | Claim | Receive | Write | Release

  datatype Step =
    | Lookup(g: nat, path: string)
    | Create(g: nat, path: string)
    | Pop(g: nat)
    | Go(g: nat, move: Move)
    | JudgeIdle(path: string)
    | Forget
    | Shut
    | ShutSignal(path: string)

  const EMPTY := Pool(map[], [], [], map[], None, false, false, false)

  /** The file is neither owned nor queued and has nothing buffered. */
  predicate Quiet(file: File) {
    !file.owned && !file.enqueued && file.buffer == []
  }

  predicate Tracked(s: Pool, f: nat) {
    f < |s.states| && s.states[f].path in s.files && s.files[s.states[f].path] == f
  }

  predicate Held(s: Pool, f: nat) {
    exists g | g in s.routines :: s.routines[g].f == f
  }

  /** Every file id a goroutine or a table entry mentions exists. */
  predicate InRange(s: Pool) {
    && (forall g | g in s.routines :: s.routines[g].f < |s.states|)
    && (forall i | 0 <= i < |s.ready| :: s.ready[i] < |s.states|)
    && (forall p | p in s.files :: s.files[p] < |s.states| && s.states[s.files[p]].path == p)
    && (s.judged.Some? ==> s.judged.value in s.files)
  }

  predicate CanMove(cfg: Config, pc: Pc, file: File, move: Move) {
    match move
    case Send(_) => pc.Holding? && |file.buffer| < cfg.depth
    case GiveUp(blocking) => pc.Holding? && (blocking || |file.buffer| == cfg.depth)
    case Signal => pc.Sent?
    case Push => pc.Pushing?
    case Undo => pc.Undoing?
    case Claim => pc.Popped?
    case Receive => pc.Draining?
    case Write => pc.Writing?
    case Release => pc.Checking?
  }

  /** What a move does: the new file state, where the goroutine then stands (None: back to
      idle), and whether it pushed the file onto the ready queue or was refused. */
  datatype Outcome = Outcome(file: File, pc: Option<Pc>, pushed: bool, refused: bool)

  /** `room` says whether the ready queue has a free place. */
  function Perform(cfg: Config, pc: Pc, file: File, room: bool, move: Move): Outcome
    requires CanMove(cfg, pc, file, move)
  {
    var f := pc.f;
    match move
    case Send(ev) =>
      Outcome(file.(buffer := file.buffer + [ev], accepted := file.accepted + [ev]), Some(Sent(f)), false, false)
    case GiveUp(_) => Outcome(file, None, false, false)
    case Signal =>
      if !file.owned && !file.enqueued
      then Outcome(file.(enqueued := true), Some(Pushing(f)), false, false)
      else Outcome(file, None, false, false)
    case Push => if room then Outcome(file, None, true, false) else Outcome(file, Some(Undoing(f)), false, true)
    case Undo => Outcome(file.(enqueued := false), None, false, false)
    case Claim => Outcome(file.(enqueued := false, owned := true), Some(Draining(f)), false, false)
    case Receive =>
      if file.buffer == []
      then Outcome(file, Some(Checking(f)), false, false)
      else Outcome(file.(buffer := file.buffer[1..]), Some(Writing(f, file.buffer[0])), false, false)
    case Write => Outcome(file.(written := file.written + [pc.ev]), Some(Draining(f)), false, false)
    case Release =>
      if file.buffer == []
      then Outcome(file.(owned := false), None, false, false)
      else Outcome(file, Some(Draining(f)), false, false)
  }

  predicate Enabled(cfg: Config, s: Pool, step: Step)
    requires InRange(s)
  {
    match step
    case Lookup(g, path) => g !in s.routines && s.judged.None? && !s.closing && path in s.files
    case Create(g, path) =>
      g !in s.routines && s.judged.None? && !s.closing && path !in s.files && |s.files| < cfg.maxFiles
    case Pop(g) => g !in s.routines && s.ready != []
    case Go(g, move) => g in s.routines && CanMove(cfg, s.routines[g], s.states[s.routines[g].f], move)
    case JudgeIdle(path) => s.judged.None? && path in s.files && Quiet(s.states[s.files[path]])
    case Forget => s.judged.Some?
    case Shut => s.judged.None? && !s.closing
    case ShutSignal(path) =>
      && s.judged.None? && s.closing && path in s.files
      && var file := s.states[s.files[path]];
         !file.owned && !file.enqueued && file.buffer != []
  }

  /** The pool after goroutine g's move on file f had outcome o. */
  function Settle(s: Pool, g: nat, f: nat, o: Outcome): Pool
    requires f < |s.states|
  {
    s.(states := s.states[f := o.file],
       routines := if o.pc.Some? then s.routines[g := o.pc.value] else s.routines - {g},
       ready := if o.pushed then s.ready + [f] else s.ready,
       refused := s.refused || o.refused)
  }

  function Apply(cfg: Config, s: Pool, step: Step): Pool
    requires InRange(s) && Enabled(cfg, s, step)
  {
    match step
    case Lookup(g, path) => s.(routines := s.routines[g := Holding(s.files[path])])
    case Create(g, path) =>
      var f := |s.states|;
      s.(states := s.states + [File(path, [], false, false, [], [])],
         files := s.files[path := f],
         routines := s.routines[g := Holding(f)])
    case Pop(g) => s.(routines := s.routines[g := Popped(s.ready[0])], ready := s.ready[1..])
    case Go(g, move) =>
      var pc := s.routines[g];
      Settle(s, g, pc.f, Perform(cfg, pc, s.states[pc.f], |s.ready| < cfg.maxFiles, move))
    case JudgeIdle(path) => s.(judged := Some(path), strayed := s.strayed || Held(s, s.files[path]))
    case Forget => s.(files := s.files - {s.judged.value}, judged := None)
    case Shut => s.(closing := true)
    case ShutSignal(path) =>
      var f := s.files[path];
      if |s.ready| < cfg.maxFiles
      then s.(states := s.states[f := s.states[f].(enqueued := true)], ready := s.ready + [f])
      else s
  }
}
