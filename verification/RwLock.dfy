/** The writer-preferring reader-writer lock as a transition system.

  One step of a task is one access to shared memory: a load, a weak
  compare-and-swap (which may fail spuriously), taking or releasing the futex's
  guard, taking or releasing the queue borrow, or waking a waiter. What a task does
  to the queues between two such steps is private to it, since it holds the borrow
  or the exclusive guard, and belongs to the step before.
 */
module RwLock {
  import opened Futex
  import opened Options

  /** readers: active readers; writers: the active writer and those queued. */
  datatype Word = Word(readers: nat, writers: nat)

  const READ_QUEUE: nat := 0
  const WRITE_QUEUE: nat := 1

  datatype Role = Reader | Writer

  /** Where a task is, with the locals it still needs. */
  datatype Pc =
    | Idle
    // read()
    | ReadTry(snap: Snap<Word>)
    | ReadParked
    | ReadWoken
    | Reading
    // write()
    | WriteTry(snap: Snap<Word>)
    | WriteParked
    | WriteWoken
    | Writing
    // dropping a wait future; woken says whether its waker slot is Done
    | CancelWait(role: Role, woken: bool)
    | CancelLocked(role: Role, woken: bool)
    | CancelFlip(role: Role, woken: bool, snap: Snap<Word>)
    | CancelCheck(role: Role, woken: bool)
    // read_unlock()
    | ReadRelease(snap: Snap<Word>)
    | LastReader(snap: Snap<Word>)
    | LastGuarded(snap: Snap<Word>)
    | LastTake(snap: Snap<Word>)
    // write_unlock()
    | WriteRelease
    | WriteGuarded
    | WriteBorrowed
    | WriteDecide(snap: Snap<Word>, hasReaders: bool)
    | WriteFast(snap: Snap<Word>)
    | WriteRelock(snap: Snap<Word>)
    // a popped writer in hand
    | HandDrop(w: Waiter)
    | HandWake(w: Waiter)
    // popped readers in hand, downgraded to a read unit
    | DownDrop(snap: Snap<Word>, list: seq<Waiter>)
    | DownCount(snap: Snap<Word>, list: seq<Waiter>)
    | DownWake(list: seq<Waiter>)
    // only the shared guard is left to release
    | Leave
    // an assertion, unwrap or subtraction of the code has failed
    | Crashed

  /** arrived and granted are histories: the writers in the order in which their
    wait took effect, and in the order in which they were popped to own the lock. */
  datatype State = State(word: Word, futex: Futex, pcs: seq<Pc>, arrived: seq<Waiter>, granted: seq<Waiter>)

  datatype Op = Proceed | StartRead | StartWrite | Cancel

  /** What the scheduler and the caller decide: which operation an idle or parked
    task turns to, and whether a weak compare-and-swap fails for no reason. */
  datatype Choice = Choice(op: Op, spurious: bool)

  function Init(tasks: nat): State
  {
    State(Word(0, 0), New(2), seq(tasks, _ => Idle), [], [])
  }

  function Current(s: State): Snap<Word>
  {
    Snap(s.word, Top(s.futex))
  }

  predicate Swaps(s: State, snap: Snap<Word>, c: Choice)
  {
    !c.spurious && snap == Current(s)
  }

  function Goto(s: State, t: nat, pc: Pc): State
    requires t < |s.pcs|
  {
    s.(pcs := s.pcs[t := pc])
  }

  /** Push a waiter on the inbox together with a new word. */
  function Park(s: State, t: nat, queue: nat, word: Word, pc: Pc): State
    requires t < |s.pcs|
  {
    var w := Waiter(t, queue);
    Goto(s, t, pc).(word := word, futex := Push(s.futex, w),
                    arrived := if queue == WRITE_QUEUE then s.arrived + [w] else s.arrived)
  }

  function Queue(f: Futex, q: nat): seq<Waiter>
  {
    if q < |f.queues| then f.queues[q] else []
  }

  function QueueOf(role: Role): nat
  {
    match role case Reader => READ_QUEUE case Writer => WRITE_QUEUE
  }

  /** The program counter of a task whose slot is swapped to Done; None if the slot
    was not waiting. */
  function Woken(pc: Pc): Option<Pc>
  {
    match pc
    case ReadParked => Some(ReadWoken)
    case WriteParked => Some(WriteWoken)
    case CancelWait(role, false) => Some(CancelWait(role, true))
    case CancelLocked(role, false) => Some(CancelLocked(role, true))
    case CancelFlip(role, false, snap) => Some(CancelFlip(role, true, snap))
    case _ => None
  }

  function Wake(s: State, t: nat, w: Waiter, next: Pc): State
    requires t < |s.pcs|
  {
    if w.task < |s.pcs| && w.task != t && Woken(s.pcs[w.task]).Some? then
      Goto(Goto(s, t, next), w.task, Woken(s.pcs[w.task]).value)
    else
      Goto(s, t, Crashed)
  }

  function AfterWake(list: seq<Waiter>): Pc
  {
    if |list| <= 1 then Leave else DownWake(list[1..])
  }

  /** Taking the shared guard blocks while the exclusive guard is held. */
  function ShareGuard(s: State, t: nat, next: Pc): State
    requires t < |s.pcs|
  {
    if s.futex.exclusive then s else Goto(s, t, next).(futex := Share(s.futex))
  }

  /** Taking the queue borrow asserts that nobody else has it. */
  function Borrow(s: State, t: nat, next: Pc): State
    requires t < |s.pcs|
  {
    if s.futex.borrowed then Goto(s, t, Crashed) else Goto(s, t, next).(futex := TakeBorrow(s.futex))
  }

  function Return(s: State, t: nat, next: Pc): State
    requires t < |s.pcs|
  {
    Goto(s, t, next).(futex := DropBorrow(s.futex))
  }

  function StepReadTry(s: State, t: nat, c: Choice, snap: Snap<Word>): State
    requires t < |s.pcs|
  {
    if !Swaps(s, snap, c) then Goto(s, t, ReadTry(Current(s)))
    else if snap.word.writers == 0 then
      Goto(s, t, Reading).(word := Word(snap.word.readers + 1, 0))
    else
      Park(s, t, READ_QUEUE, snap.word, ReadParked)
  }

  function StepWriteTry(s: State, t: nat, c: Choice, snap: Snap<Word>): State
    requires t < |s.pcs|
  {
    if !Swaps(s, snap, c) then Goto(s, t, WriteTry(Current(s)))
    else if snap.word == Word(0, 0) then
      Goto(s, t, Writing).(word := Word(0, 1))
    else
      Park(s, t, WRITE_QUEUE, Word(snap.word.readers, snap.word.writers + 1), WriteParked)
  }

  function StepReadRelease(s: State, t: nat, c: Choice, snap: Snap<Word>): State
    requires t < |s.pcs|
  {
    if snap.word.readers == 1 && snap.word.writers > 0 then Goto(s, t, LastReader(snap))
    else if snap.word.readers == 0 then Goto(s, t, Crashed)
    else if Swaps(s, snap, c) then
      Goto(s, t, Idle).(word := Word(snap.word.readers - 1, snap.word.writers))
    else Goto(s, t, ReadRelease(Current(s)))
  }

  /** Take the inbox with a new word and pop the writer that becomes the owner. */
  function HandOver(s: State, t: nat, word: Word): State
    requires t < |s.pcs|
  {
    var e := Enqueue(s.futex);
    if Queue(e, WRITE_QUEUE) == [] then Goto(s, t, Crashed)
    else
      var w := e.queues[WRITE_QUEUE][0];
      Goto(s, t, HandDrop(w)).(word := word, futex := Pop(e, WRITE_QUEUE, 1), granted := s.granted + [w])
  }

  /** The last reader asserts that a writer is there exactly if one is counted. */
  function StepLastTake(s: State, t: nat, c: Choice, snap: Snap<Word>): State
    requires t < |s.pcs|
  {
    if !Swaps(s, snap, c) then Goto(s, t, LastTake(Current(s)))
    else
      var e := Enqueue(s.futex);
      if Queue(e, WRITE_QUEUE) != [] && snap.word.writers > 0 then HandOver(s, t, Word(0, snap.word.writers))
      else if Queue(e, WRITE_QUEUE) == [] && snap.word.writers == 0 && Queue(e, READ_QUEUE) == [] then
        Return(s, t, Leave).(word := Word(0, 0), futex := DropBorrow(e))
      else Goto(s, t, Crashed)
  }

  /** The owner becomes a reader and keeps all waiting readers in its hand. */
  function Downgrade(s: State, t: nat, snap: Snap<Word>): State
    requires t < |s.pcs|
  {
    var e := Enqueue(s.futex);
    if Queue(e, WRITE_QUEUE) != [] || |e.queues| == 0 then Goto(s, t, Crashed)
    else
      var list := e.queues[READ_QUEUE];
      Goto(s, t, DownDrop(snap, list)).(word := Word(1, 0), futex := Pop(e, READ_QUEUE, |list|))
  }

  function StepWriteDecide(s: State, t: nat, c: Choice, snap: Snap<Word>, hasReaders: bool): State
    requires t < |s.pcs|
  {
    if snap.word.readers != 0 then Goto(s, t, Crashed)
    else if snap.word.writers == 1 && !hasReaders && snap.inbox.None? then Return(s, t, WriteFast(snap))
    else if snap.word.writers == 0 then Goto(s, t, Crashed)
    else if !Swaps(s, snap, c) then Goto(s, t, WriteDecide(Current(s), hasReaders))
    else if snap.word.writers == 1 then Downgrade(s, t, snap)
    else HandOver(s, t, Word(snap.word.readers, snap.word.writers - 1))
  }

  function StepWriteFast(s: State, t: nat, c: Choice, snap: Snap<Word>): State
    requires t < |s.pcs|
  {
    if Swaps(s, snap, c) then Goto(s, t, Leave).(word := Word(0, 0))
    else Goto(s, t, WriteRelock(Current(s)))
  }

  /** The downgrade leader turns its own unit into one unit per popped reader. Its
    first attempt runs with the snapshot from before the downgrade. */
  function StepDownCount(s: State, t: nat, c: Choice, snap: Snap<Word>, list: seq<Waiter>): State
    requires t < |s.pcs|
  {
    if snap.word.readers + |list| == 0 then Goto(s, t, Crashed)
    else if Swaps(s, snap, c) then
      Goto(s, t, if list == [] then Leave else DownWake(list)).(
        word := Word(snap.word.readers + |list| - 1, snap.word.writers))
    else Goto(s, t, DownCount(Current(s), list))
  }

  /** Dropping a wait future under the exclusive guard: flip the inbox into the
    queues, unlink the waiter, release the guard. */
  function StepCancelFlip(s: State, t: nat, c: Choice, role: Role, woken: bool, snap: Snap<Word>): State
    requires t < |s.pcs|
  {
    var w := Waiter(t, QueueOf(role));
    if snap.inbox.None? then
      Goto(s, t, CancelCheck(role, woken)).(futex := Include(Unlink(s.futex, w)))
    else if Swaps(s, snap, c) then
      Goto(s, t, CancelCheck(role, woken)).(futex := Include(Unlink(Enqueue(s.futex), w)))
    else Goto(s, t, CancelFlip(role, woken, Current(s)))
  }

  /** One step of task t. A step that is not enabled leaves the state as it is.
    Queued writers cannot be cancelled: the code has no body for that case. */
  function Step(s: State, t: nat, c: Choice): State
    requires t < |s.pcs|
  {
    match s.pcs[t]
    case Idle =>
      if c.op.StartRead? then Goto(s, t, ReadTry(Current(s)))
      else if c.op.StartWrite? then Goto(s, t, WriteTry(Current(s)))
      else s
    case ReadTry(snap) => StepReadTry(s, t, c, snap)
    case ReadParked => if c.op.Cancel? then Goto(s, t, CancelWait(Reader, false)) else s
    case ReadWoken => Goto(s, t, if c.op.Cancel? then CancelWait(Reader, true) else Reading)
    case Reading => Goto(s, t, ReadRelease(Current(s)))
    case WriteTry(snap) => StepWriteTry(s, t, c, snap)
    case WriteParked => s
    case WriteWoken => Goto(s, t, if c.op.Cancel? then CancelWait(Writer, true) else Writing)
    case Writing => Goto(s, t, WriteRelease)
    case CancelWait(role, woken) =>
      if s.futex.exclusive || s.futex.guards > 0 then s
      else Goto(s, t, CancelLocked(role, woken)).(futex := Exclude(s.futex))
    case CancelLocked(role, woken) => Goto(s, t, CancelFlip(role, woken, Current(s)))
    case CancelFlip(role, woken, snap) => StepCancelFlip(s, t, c, role, woken, snap)
    case CancelCheck(role, woken) =>
      if role.Reader? then Goto(s, t, if woken then ReadRelease(Current(s)) else Idle)
      else Goto(s, t, if woken then WriteRelease else Crashed)
    case ReadRelease(snap) => StepReadRelease(s, t, c, snap)
    case LastReader(snap) => ShareGuard(s, t, LastGuarded(snap))
    case LastGuarded(snap) => Borrow(s, t, LastTake(snap))
    case LastTake(snap) => StepLastTake(s, t, c, snap)
    case WriteRelease => ShareGuard(s, t, WriteGuarded)
    case WriteGuarded => Borrow(s, t, WriteBorrowed)
    case WriteBorrowed => Goto(s, t, WriteDecide(Current(s), Queue(s.futex, READ_QUEUE) != []))
    case WriteDecide(snap, hasReaders) => StepWriteDecide(s, t, c, snap, hasReaders)
    case WriteFast(snap) => StepWriteFast(s, t, c, snap)
    case WriteRelock(snap) => Borrow(s, t, WriteDecide(snap, false))
    case HandDrop(w) => Return(s, t, HandWake(w))
    case HandWake(w) => Wake(s, t, w, Leave)
    case DownDrop(snap, list) => Return(s, t, DownCount(snap, list))
    case DownCount(snap, list) => StepDownCount(s, t, c, snap, list)
    case DownWake(list) => if list == [] then Goto(s, t, Leave) else Wake(s, t, list[0], AfterWake(list))
    case Leave => Goto(s, t, Idle).(futex := Unshare(s.futex))
    case Crashed => s
  }

  /** A run: any interleaving of any tasks with any choices. */
  function Run(s: State, schedule: seq<(nat, Choice)>): State
    decreases |schedule|
  {
    if schedule == [] then s
    else
      var last := |schedule| - 1;
      var p := Run(s, schedule[..last]);
      var (t, c) := schedule[last];
      if t < |p.pcs| then Step(p, t, c) else p
  }
}
