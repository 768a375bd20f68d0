/** The barging mutex as a transition system.

  One step of a task is one access to shared memory, as in RwLock. A wait has no
  cancellation code here, so a parked task stays parked until it is woken.
 */
module FastMutex {
  import opened Futex
  import opened Options

  /** waiters: the tasks asleep, and the woken one that has not decided yet. */
  datatype Word = Word(locked: bool, waking: bool, waiters: nat)

  datatype Pc =
    | Idle
    // lock(), before and after the first wait; a woken task still has the snapshot
    // with which it went to sleep
    | LockTry(snap: Snap<Word>)
    | Parked(snap: Snap<Word>, woken: bool)
    | Retry(snap: Snap<Word>)
    | Held
    // unlock()
    | UnlockTry(snap: Snap<Word>)
    | UnlockGuard(snap: Snap<Word>)
    | UnlockBorrow(snap: Snap<Word>)
    | UnlockDecide(snap: Snap<Word>, queued: bool)
    | HandDrop(w: Waiter)
    | HandWake(w: Waiter)
    | Return
    | Leave
    // an assertion, unwrap or subtraction of the code has failed
    | Crashed

  /** holder and awake are histories: the task that has the mutex, and the one that
    carries the wake-up announced by the waking flag. */
  datatype State = State(word: Word, futex: Futex, pcs: seq<Pc>, holder: Option<nat>, awake: Option<nat>)

  datatype Choice = Choice(start: bool, spurious: bool)

  function Init(tasks: nat): State
  {
    State(Word(false, false, 0), New(1), seq(tasks, _ => Idle), None, None)
  }

  function Current(s: State): Snap<Word>
  {
    Snap(s.word, Top(s.futex))
  }

  predicate Swaps(s: State, snap: Snap<Word>, c: Choice)
  {
    !c.spurious && snap == Current(s)
  }

  function Goto(s: State, t: nat, pc: Pc): State
    requires t < |s.pcs|
  {
    s.(pcs := s.pcs[t := pc])
  }

  function Park(s: State, t: nat, snap: Snap<Word>, word: Word): State
    requires t < |s.pcs|
  {
    Goto(s, t, Parked(snap, false)).(word := word, futex := Push(s.futex, Waiter(t, 0)))
  }

  function StepLockTry(s: State, t: nat, c: Choice, snap: Snap<Word>): State
    requires t < |s.pcs|
  {
    if !Swaps(s, snap, c) then Goto(s, t, LockTry(Current(s)))
    else if snap.word.locked then Park(s, t, snap, snap.word.(waiters := snap.word.waiters + 1))
    else Goto(s, t, Held).(word := snap.word.(locked := true), holder := Some(t))
  }

  /** The woken task takes the mutex, or sleeps again and lets the next wake-up happen. */
  function StepRetry(s: State, t: nat, c: Choice, snap: Snap<Word>): State
    requires t < |s.pcs|
  {
    if !snap.word.locked && snap.word.waiters == 0 then Goto(s, t, Crashed)
    else if !Swaps(s, snap, c) then Goto(s, t, Retry(Current(s)))
    else if snap.word.locked then Park(s, t, snap, snap.word.(waking := false)).(awake := None)
    else Goto(s, t, Held).(word := Word(true, false, snap.word.waiters - 1), holder := Some(t), awake := None)
  }

  function StepUnlockTry(s: State, t: nat, c: Choice, snap: Snap<Word>): State
    requires t < |s.pcs|
  {
    if !snap.word.waking && snap.word.waiters != 0 then Goto(s, t, UnlockGuard(snap))
    else if Swaps(s, snap, c) then Goto(s, t, Idle).(word := snap.word.(locked := false), holder := None)
    else Goto(s, t, UnlockTry(Current(s)))
  }

  /** Having announced a wake-up the task pops the waiter to wake, unless one was
    announced before. */
  function Announce(s: State, t: nat, snap: Snap<Word>, f: Futex): State
    requires t < |s.pcs|
  {
    var s' := s.(word := snap.word.(locked := false, waking := true), holder := None);
    if snap.word.waking then Goto(s', t, Return).(futex := f)
    else if Front(f) == [] then Goto(s', t, Crashed)
    else Goto(s', t, HandDrop(f.queues[0][0])).(futex := Pop(f, 0, 1), awake := Some(t))
  }

  function StepUnlockDecide(s: State, t: nat, c: Choice, snap: Snap<Word>, queued: bool): State
    requires t < |s.pcs|
  {
    if !queued && snap.inbox.None? && snap.word.waiters != 0 then Goto(s, t, Crashed)
    else if !Swaps(s, snap, c) then Goto(s, t, UnlockDecide(Current(s), queued))
    else if queued then Announce(s, t, snap, s.futex)
    else if snap.inbox.Some? then Announce(s, t, snap, Enqueue(s.futex))
    else Goto(s, t, Return).(word := Word(false, false, 0), holder := None)
  }

  function Wake(s: State, t: nat, w: Waiter): State
    requires t < |s.pcs|
  {
    if w.task < |s.pcs| && w.task != t && s.pcs[w.task].Parked? && !s.pcs[w.task].woken then
      Goto(Goto(s, t, Leave), w.task, Parked(s.pcs[w.task].snap, true)).(awake := Some(w.task))
    else Goto(s, t, Crashed)
  }

  /** One step of task t. A step that is not enabled leaves the state as it is. */
  function Step(s: State, t: nat, c: Choice): State
    requires t < |s.pcs|
  {
    match s.pcs[t]
    case Idle => if c.start then Goto(s, t, LockTry(Current(s))) else s
    case LockTry(snap) => StepLockTry(s, t, c, snap)
    case Parked(snap, woken) => if woken then Goto(s, t, Retry(snap)) else s
    case Retry(snap) => StepRetry(s, t, c, snap)
    case Held => Goto(s, t, UnlockTry(Current(s)))
    case UnlockTry(snap) => StepUnlockTry(s, t, c, snap)
    case UnlockGuard(snap) =>
      if s.futex.exclusive then s else Goto(s, t, UnlockBorrow(snap)).(futex := Share(s.futex))
    case UnlockBorrow(snap) =>
      if s.futex.borrowed then Goto(s, t, Crashed)
      else Goto(s, t, UnlockDecide(snap, Front(s.futex) != [])).(futex := TakeBorrow(s.futex))
    case UnlockDecide(snap, queued) => StepUnlockDecide(s, t, c, snap, queued)
    case HandDrop(w) => Goto(s, t, HandWake(w)).(futex := DropBorrow(s.futex))
    case HandWake(w) => Wake(s, t, w)
    case Return => Goto(s, t, Leave).(futex := DropBorrow(s.futex))
    case Leave => Goto(s, t, Idle).(futex := Unshare(s.futex))
    case Crashed => s
  }

  /** A run: any interleaving of any tasks with any choices. */
  function Run(s: State, schedule: seq<(nat, Choice)>): State
    decreases |schedule|
  {
    if schedule == [] then s
    else
      var last := |schedule| - 1;
      var p := Run(s, schedule[..last]);
      var (t, c) := schedule[last];
      if t < |p.pcs| then Step(p, t, c) else p
  }
}
