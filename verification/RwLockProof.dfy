/** The counting invariant of the reader-writer lock, kept by every step of every
  task, and what it means for whole runs.
 */
module RwLockProof {
  import opened Counting
  import opened Futex
  import opened FutexLaws
  import opened Options
  import opened RwLock

  // ----- what a task holds -----

  /** Read units of the word: handed-out reads, and the downgrade leader's own unit
    until it is replaced by one unit per popped reader still to wake. */
  function ReadUnits(pc: Pc): nat
  {
    match pc
    case ReadWoken | Reading | ReadRelease(_) => 1
    case LastReader(_) | LastGuarded(_) | LastTake(_) => 1
    case CancelWait(Reader, true) | CancelLocked(Reader, true)
      | CancelFlip(Reader, true, _) | CancelCheck(Reader, true) => 1
    case DownDrop(_, _) | DownCount(_, _) => 1
    case DownWake(list) => |list|
    case _ => 0
  }

  /** Exclusive ownership: a writer from grant to release, or the task that carries
    the grant from one owner to the next. */
  function Tokens(pc: Pc): nat
  {
    match pc
    case WriteWoken | Writing => 1
    case CancelWait(Writer, _) | CancelLocked(Writer, _)
      | CancelFlip(Writer, _, _) | CancelCheck(Writer, _) => 1
    case WriteRelease | WriteGuarded | WriteBorrowed => 1
    case WriteDecide(_, _) | WriteFast(_) | WriteRelock(_) => 1
    case HandDrop(_) | HandWake(_) => 1
    case _ => 0
  }

  /** Write units of the word: the owner and every queued writer. */
  function WriteUnits(pc: Pc): nat
  {
    match pc
    case WriteParked => 1
    case HandDrop(_) | HandWake(_) => 0
    case _ => Tokens(pc)
  }

  /** A reader that has seen itself to be the last one before a writer. */
  predicate IsLast(pc: Pc)
  {
    match pc
    case ReadRelease(snap) => snap.word.readers == 1 && snap.word.writers > 0
    case LastReader(_) | LastGuarded(_) | LastTake(_) => true
    case _ => false
  }

  /** The right to touch the queues. */
  function Notifiers(pc: Pc): nat
  {
    match pc
    case DownDrop(_, _) | DownCount(_, _) => 1
    case DownWake(list) => if list == [] then 0 else 1
    case _ => if IsLast(pc) then 1 else Tokens(pc)
  }

  /** The task's part in the futex. */
  function PartOf(pc: Pc): Part
  {
    match pc
    case ReadParked => OUTSIDE.(waits := Some(READ_QUEUE))
    case WriteParked => OUTSIDE.(waits := Some(WRITE_QUEUE))
    case CancelWait(role, woken) => OUTSIDE.(waits := Sleeping(role, woken))
    case CancelLocked(role, woken) => OUTSIDE.(waits := Sleeping(role, woken), exclusive := 1)
    case CancelFlip(role, woken, snap) =>
      OUTSIDE.(waits := Sleeping(role, woken), exclusive := 1, away := snap.inbox.None?)
    case LastGuarded(_) | WriteGuarded | WriteFast(_) | WriteRelock(_) | Leave => OUTSIDE.(guard := 1)
    case LastTake(_) | WriteBorrowed | WriteDecide(_, _) => OUTSIDE.(guard := 1, borrow := 1)
    case HandDrop(w) => OUTSIDE.(guard := 1, borrow := 1, hand := [w])
    case HandWake(w) => OUTSIDE.(guard := 1, hand := [w])
    case DownDrop(_, list) => OUTSIDE.(guard := 1, borrow := 1, hand := list)
    case DownCount(_, list) => OUTSIDE.(guard := 1, hand := list)
    case DownWake(list) => OUTSIDE.(guard := 1, hand := list)
    case _ => OUTSIDE
  }

  function Sleeping(role: Role, woken: bool): Option<nat>
  {
    if woken then None else Some(QueueOf(role))
  }

  function Parts(pcs: seq<Pc>): seq<Part>
  {
    Map(pcs, PartOf)
  }

  // ----- the invariant -----

  ghost predicate Counts(word: Word, pcs: seq<Pc>)
  {
    && word.readers == Sum(pcs, ReadUnits)
    && word.writers == Sum(pcs, WriteUnits)
    && Sum(pcs, Tokens) == (if word.writers > 0 && word.readers == 0 then 1 else 0)
    && Sum(pcs, Notifiers) <= 1
  }

  ghost predicate Law(s: State)
  {
    Lawful(s.futex, Parts(s.pcs)) && |s.futex.queues| == 2
  }

  /** What holds at single program points. */
  predicate PcOk(word: Word, anyReader: bool, pc: Pc)
  {
    && (IsLast(pc) ==> word.readers == 1 && word.writers > 0)
    && match pc
       case CancelWait(Writer, woken) => woken
       case CancelLocked(Writer, woken) => woken
       case CancelFlip(Writer, woken, _) => woken
       case CancelCheck(Writer, woken) => woken
       case ReadRelease(snap) => snap.word.readers >= 1
       case WriteDecide(snap, hasReaders) =>
         snap.word.readers == 0 && snap.word.writers >= 1 && hasReaders == anyReader
       case WriteFast(snap) => snap == Snap(Word(0, 1), None) && !anyReader
       case WriteRelock(snap) => snap.word.readers == 0 && snap.word.writers >= 1 && !anyReader
       case HandDrop(w) => w.queue == WRITE_QUEUE
       case HandWake(w) => w.queue == WRITE_QUEUE
       case DownDrop(snap, list) => snap.word == Word(0, 1) && list != []
           && forall w :: w in list ==> w.queue == READ_QUEUE
       case DownCount(_, list) => list != [] && forall w :: w in list ==> w.queue == READ_QUEUE
       case DownWake(list) => list != [] && forall w :: w in list ==> w.queue == READ_QUEUE
       case Crashed => false
       case _ => true
  }

  predicate AnyReader(s: State)
  {
    Queue(s.futex, READ_QUEUE) != []
  }

  ghost predicate Local(word: Word, anyReader: bool, pcs: seq<Pc>)
  {
    forall i :: 0 <= i < |pcs| ==> PcOk(word, anyReader, pcs[i])
  }

  /** Without a writer no reader waits. */
  predicate Calm(s: State)
  {
    s.word.writers == 0 ==> s.futex.inbox == [] && !AnyReader(s)
  }

  /** Writers are granted the lock in the order in which they began to wait. */
  predicate InOrder(s: State)
  {
    s.arrived == s.granted + Queue(s.futex, WRITE_QUEUE) + OnQueue(s.futex.inbox, WRITE_QUEUE)
  }

  ghost predicate Inv(s: State)
  {
    Counts(s.word, s.pcs) && Law(s) && Local(s.word, AnyReader(s), s.pcs) && Calm(s) && InOrder(s)
  }

  lemma {:induction false} PcAt(s: State, t: nat)
    requires Local(s.word, AnyReader(s), s.pcs) && t < |s.pcs|
    ensures PcOk(s.word, AnyReader(s), s.pcs[t])
  {
  }

  lemma {:induction false} PcHolds(s: State, t: nat)
    requires Inv(s) && t < |s.pcs|
    ensures PcOk(s.word, AnyReader(s), s.pcs[t])
  {
    PcAt(s, t);
  }

  // ----- how the sums follow a step -----

  lemma {:induction false} MoveUnits(pcs: seq<Pc>, t: nat, pc: Pc)
    requires t < |pcs|
    ensures Sum(pcs[t := pc], ReadUnits) + ReadUnits(pcs[t]) == Sum(pcs, ReadUnits) + ReadUnits(pc)
    ensures Sum(pcs[t := pc], WriteUnits) + WriteUnits(pcs[t]) == Sum(pcs, WriteUnits) + WriteUnits(pc)
    ensures Sum(pcs[t := pc], Tokens) + Tokens(pcs[t]) == Sum(pcs, Tokens) + Tokens(pc)
    ensures Sum(pcs[t := pc], Notifiers) + Notifiers(pcs[t]) == Sum(pcs, Notifiers) + Notifiers(pc)
  {
    SumUpdate(pcs, ReadUnits, t, pc);
    SumUpdate(pcs, WriteUnits, t, pc);
    SumUpdate(pcs, Tokens, t, pc);
    SumUpdate(pcs, Notifiers, t, pc);
  }

  predicate SameUnits(pc: Pc, next: Pc)
  {
    && ReadUnits(pc) == ReadUnits(next) && WriteUnits(pc) == WriteUnits(next)
    && Tokens(pc) == Tokens(next)
  }

  lemma {:induction false} CountsSame(word: Word, pcs: seq<Pc>, t: nat, next: Pc)
    requires Counts(word, pcs) && t < |pcs| && SameUnits(pcs[t], next)
    requires Notifiers(next) <= Notifiers(pcs[t]) || Sum(pcs, Notifiers) == 0
    ensures Counts(word, pcs[t := next])
  {
    MoveUnits(pcs, t, next);
  }

  /** A notifier is the only one. */
  lemma {:induction false} Alone(word: Word, pcs: seq<Pc>, t: nat)
    requires Counts(word, pcs) && t < |pcs| && Notifiers(pcs[t]) == 1
    ensures forall i :: 0 <= i < |pcs| && i != t ==> Notifiers(pcs[i]) == 0
  {
    forall i | 0 <= i < |pcs| && i != t
      ensures Notifiers(pcs[i]) == 0
    {
      SumTwo(pcs, Notifiers, i, t);
    }
  }

  /** The owner sees no reader and at least its own write unit. */
  lemma {:induction false} OwnerSees(word: Word, pcs: seq<Pc>, t: nat)
    requires Counts(word, pcs) && t < |pcs| && Tokens(pcs[t]) == 1
    ensures word.readers == 0 && word.writers >= 1
  {
    SumAt(pcs, Tokens, t);
  }

  // ----- how the facts at program points follow a step -----

  predicate WatchesReaders(pc: Pc)
  {
    pc.WriteDecide? || pc.WriteFast? || pc.WriteRelock?
  }

  lemma {:induction false} PcOkStable(pc: Pc, word: Word, anyReader: bool, word': Word, anyReader': bool)
    requires PcOk(word, anyReader, pc)
    requires IsLast(pc) ==> word'.readers == 1 && word'.writers > 0
    requires WatchesReaders(pc) ==> anyReader' == anyReader
    ensures PcOk(word', anyReader', pc)
  {
  }

  /** Nobody else relies on what the step changes. */
  lemma {:induction false} LocalFollows(word: Word, anyReader: bool, pcs: seq<Pc>, t: nat, word': Word,
          anyReader': bool, next: Pc)
    requires Local(word, anyReader, pcs) && t < |pcs| && PcOk(word', anyReader', next)
    requires forall i :: 0 <= i < |pcs| && i != t && IsLast(pcs[i]) ==> word'.readers == 1 && word'.writers > 0
    requires forall i :: 0 <= i < |pcs| && i != t && WatchesReaders(pcs[i]) ==> anyReader' == anyReader
    ensures Local(word', anyReader', pcs[t := next])
  {
    forall i | 0 <= i < |pcs| && i != t
      ensures PcOk(word', anyReader', pcs[i])
    {
      PcOkStable(pcs[i], word, anyReader, word', anyReader');
    }
  }

  /** After a notifier's step nobody else relies on the word or on the read queue. */
  lemma {:induction false} NotifierLocal(word: Word, anyReader: bool, pcs: seq<Pc>, t: nat, word': Word,
          anyReader': bool, next: Pc)
    requires Counts(word, pcs) && Local(word, anyReader, pcs) && t < |pcs| && Notifiers(pcs[t]) == 1
    requires PcOk(word', anyReader', next)
    ensures Local(word', anyReader', pcs[t := next])
  {
    Alone(word, pcs, t);
    LocalFollows(word, anyReader, pcs, t, word', anyReader', next);
  }

  // ----- steps that leave word and lists alone -----

  /** One task turns to another program point; the futex changes by a lawful step that
    moves no waiter. */
  lemma {:induction false} TurnKeeps(s: State, s': State, t: nat, next: Pc)
    requires Inv(s) && t < |s.pcs| && s'.pcs == s.pcs[t := next]
    requires s'.word == s.word && s'.arrived == s.arrived && s'.granted == s.granted
    requires s'.futex.inbox == s.futex.inbox && s'.futex.queues == s.futex.queues
    requires SameUnits(s.pcs[t], next)
    requires Notifiers(next) <= Notifiers(s.pcs[t]) || Sum(s.pcs, Notifiers) == 0
    requires PcOk(s.word, AnyReader(s), next)
    requires Lawful(s'.futex, Parts(s.pcs)[t := PartOf(next)])
    ensures Inv(s')
  {
    hide Counts, Lawful, Local, PcOk;
    CountsSame(s.word, s.pcs, t, next);
    MapUpdate(s.pcs, PartOf, t, next);
    LocalTurn(s, t, next);
  }

  lemma {:induction false} LocalTurn(s: State, t: nat, next: Pc)
    requires Local(s.word, AnyReader(s), s.pcs) && t < |s.pcs| && PcOk(s.word, AnyReader(s), next)
    ensures Local(s.word, AnyReader(s), s.pcs[t := next])
  {
  }

  /** The futex is not touched at all. */
  lemma {:induction false} StayKeeps(s: State, t: nat, next: Pc)
    requires Inv(s) && t < |s.pcs| && SameUnits(s.pcs[t], next)
    requires Notifiers(next) <= Notifiers(s.pcs[t]) || Sum(s.pcs, Notifiers) == 0
    requires PcOk(s.word, AnyReader(s), next)
    requires PartOf(next) == PartOf(s.pcs[t]).(away := PartOf(next).away)
    requires PartOf(next).away ==> s.futex.inbox == []
    ensures Inv(Goto(s, t, next))
  {
    hide Counts, Lawful, Local, PcOk;
    StayLaw(s.futex, Parts(s.pcs), t, PartOf(next));
    TurnKeeps(s, Goto(s, t, next), t, next);
  }

  lemma {:induction false} ShareKeeps(s: State, t: nat, next: Pc)
    requires Inv(s) && t < |s.pcs|
    requires || (s.pcs[t].LastReader? && next == LastGuarded(s.pcs[t].snap))
             || (s.pcs[t].WriteRelease? && next == WriteGuarded)
    ensures Inv(ShareGuard(s, t, next))
  {
    hide Counts, Lawful, Local;
    PcAt(s, t);
    if !s.futex.exclusive {
      ShareLaw(s.futex, Parts(s.pcs), t);
      TurnKeeps(s, ShareGuard(s, t, next), t, next);
    }
  }

  /** Nobody but a notifier has the borrow. */
  lemma {:induction false} NobodyBorrows(word: Word, pcs: seq<Pc>, t: nat)
    requires Counts(word, pcs) && t < |pcs| && Notifiers(pcs[t]) == 1 && PartOf(pcs[t]).borrow == 0
    ensures forall i :: 0 <= i < |pcs| ==> Parts(pcs)[i].borrow == 0
  {
    Alone(word, pcs, t);
    forall i | 0 <= i < |pcs|
      ensures PartOf(pcs[i]).borrow == 0
    {
      assert i != t ==> Notifiers(pcs[i]) == 0;
    }
  }

  lemma {:induction false} BorrowKeeps(s: State, t: nat, next: Pc)
    requires Inv(s) && t < |s.pcs|
    requires || (s.pcs[t].LastGuarded? && next == LastTake(s.pcs[t].snap))
             || (s.pcs[t].WriteGuarded? && next == WriteBorrowed)
             || (s.pcs[t].WriteRelock? && next == WriteDecide(s.pcs[t].snap, false))
    ensures Inv(Borrow(s, t, next))
  {
    hide Counts, Lawful, Local;
    PcAt(s, t);
    NobodyBorrows(s.word, s.pcs, t);
    TakeBorrowLaw(s.futex, Parts(s.pcs), t);
    TurnKeeps(s, Borrow(s, t, next), t, next);
  }

  lemma {:induction false} ReturnKeeps(s: State, t: nat, next: Pc)
    requires Inv(s) && t < |s.pcs| && PartOf(s.pcs[t]).borrow == 1
    requires PartOf(next) == PartOf(s.pcs[t]).(borrow := 0) && SameUnits(s.pcs[t], next)
    requires Notifiers(next) <= Notifiers(s.pcs[t]) && PcOk(s.word, AnyReader(s), next)
    ensures Inv(Return(s, t, next))
  {
    hide Counts, Lawful, Local, PcOk;
    DropBorrowLaw(s.futex, Parts(s.pcs), t);
    TurnKeeps(s, Return(s, t, next), t, next);
  }

  lemma {:induction false} LeaveKeeps(s: State, t: nat)
    requires Inv(s) && t < |s.pcs| && s.pcs[t] == Leave
    ensures Inv(Goto(s, t, Idle).(futex := Unshare(s.futex)))
  {
    hide Counts, Lawful, Local;
    UnshareLaw(s.futex, Parts(s.pcs), t);
    TurnKeeps(s, Goto(s, t, Idle).(futex := Unshare(s.futex)), t, Idle);
  }

  lemma {:induction false} ExcludeKeeps(s: State, t: nat, role: Role, woken: bool)
    requires Inv(s) && t < |s.pcs| && s.pcs[t] == CancelWait(role, woken)
    requires !s.futex.exclusive && s.futex.guards == 0
    ensures Inv(Goto(s, t, CancelLocked(role, woken)).(futex := Exclude(s.futex)))
  {
    hide Counts, Lawful, Local;
    PcAt(s, t);
    ExcludeLaw(s.futex, Parts(s.pcs), t);
    TurnKeeps(s, Goto(s, t, CancelLocked(role, woken)).(futex := Exclude(s.futex)), t, CancelLocked(role, woken));
  }

  // ----- entering and parking -----

  lemma {:induction false} NotifiersBounded(pcs: seq<Pc>)
    ensures Sum(pcs, Notifiers) <= Sum(pcs, Tokens) + Sum(pcs, ReadUnits)
  {
    SumBound(pcs, Notifiers, Tokens, ReadUnits);
  }

  lemma {:induction false} EnterCounts(word: Word, pcs: seq<Pc>, t: nat, next: Pc)
    requires Counts(word, pcs) && t < |pcs| && (pcs[t].ReadTry? || pcs[t].WriteTry?)
    requires (next == Reading && word.writers == 0) || (next == Writing && word == Word(0, 0))
    ensures Counts(Word(word.readers + ReadUnits(next), WriteUnits(next)), pcs[t := next])
  {
    MoveUnits(pcs, t, next);
    NotifiersBounded(pcs);
  }

  lemma {:induction false} EnterLocal(s: State, t: nat, word: Word, next: Pc)
    requires Local(s.word, AnyReader(s), s.pcs) && t < |s.pcs| && s.word.writers == 0
    requires next == Reading || next == Writing
    ensures Local(word, AnyReader(s), s.pcs[t := next])
  {
    LocalFollows(s.word, AnyReader(s), s.pcs, t, word, AnyReader(s), next);
  }

  /** Entering without waiting: a reader while there is no writer, or a writer alone. */
  lemma {:induction false} EnterKeeps(s: State, t: nat, next: Pc)
    requires Inv(s) && t < |s.pcs| && (s.pcs[t].ReadTry? || s.pcs[t].WriteTry?)
    requires (next == Reading && s.word.writers == 0) || (next == Writing && s.word == Word(0, 0))
    ensures Inv(Goto(s, t, next).(word := Word(s.word.readers + ReadUnits(next), WriteUnits(next))))
  {
    hide Counts, Lawful, Local;
    EnterCounts(s.word, s.pcs, t, next);
    StayLaw(s.futex, Parts(s.pcs), t, PartOf(next));
    MapUpdate(s.pcs, PartOf, t, next);
    EnterLocal(s, t, Word(s.word.readers + ReadUnits(next), WriteUnits(next)), next);
  }

  lemma {:induction false} ParkCounts(word: Word, pcs: seq<Pc>, t: nat, next: Pc)
    requires Counts(word, pcs) && t < |pcs| && (pcs[t].ReadTry? || pcs[t].WriteTry?)
    requires next == ReadParked || (next == WriteParked && word != Word(0, 0))
    ensures Counts(Word(word.readers, word.writers + WriteUnits(next)), pcs[t := next])
  {
    MoveUnits(pcs, t, next);
  }

  lemma {:induction false} ParkLocal(s: State, t: nat, next: Pc)
    requires Local(s.word, AnyReader(s), s.pcs) && t < |s.pcs| && (next == ReadParked || next == WriteParked)
    ensures Local(Word(s.word.readers, s.word.writers + WriteUnits(next)), AnyReader(s), s.pcs[t := next])
  {
    LocalFollows(s.word, AnyReader(s), s.pcs, t,
                 Word(s.word.readers, s.word.writers + WriteUnits(next)), AnyReader(s), next);
  }

  lemma {:induction false} ParkInOrder(s: State, t: nat, queue: nat, word: Word, next: Pc)
    requires InOrder(s) && t < |s.pcs|
    ensures InOrder(Park(s, t, queue, word, next))
  {
    var w := Waiter(t, queue);
    OnQueueAppend(s.futex.inbox, [w], WRITE_QUEUE);
    if queue == WRITE_QUEUE {
      assert OnQueue([w], WRITE_QUEUE) == [w];
    } else {
      assert OnQueue([w], WRITE_QUEUE) == [];
    }
  }

  /** Parking: the task joins the inbox and the sleepers in one step. */
  lemma {:induction false} ParkKeeps(s: State, t: nat, queue: nat, next: Pc)
    requires Inv(s) && t < |s.pcs| && (s.pcs[t].ReadTry? || s.pcs[t].WriteTry?)
    requires || (next == ReadParked && queue == READ_QUEUE && s.word.writers > 0)
             || (next == WriteParked && queue == WRITE_QUEUE && s.word != Word(0, 0))
    ensures Inv(Park(s, t, queue, Word(s.word.readers, s.word.writers + WriteUnits(next)), next))
  {
    hide Counts, Lawful, Local, InOrder;
    ParkCounts(s.word, s.pcs, t, next);
    ParkLaw(s.futex, Parts(s.pcs), t, queue, PartOf(next));
    MapUpdate(s.pcs, PartOf, t, next);
    ParkLocal(s, t, next);
    ParkInOrder(s, t, queue, Word(s.word.readers, s.word.writers + WriteUnits(next)), next);
  }

  lemma {:induction false} ReadTryKeeps(s: State, t: nat, c: Choice, snap: Snap<Word>)
    requires Inv(s) && t < |s.pcs| && s.pcs[t] == ReadTry(snap)
    ensures Inv(StepReadTry(s, t, c, snap))
  {
    hide Inv;
    if !Swaps(s, snap, c) {
      StayKeeps(s, t, ReadTry(Current(s)));
    } else if snap.word.writers == 0 {
      EnterKeeps(s, t, Reading);
    } else {
      ParkKeeps(s, t, READ_QUEUE, ReadParked);
    }
  }

  lemma {:induction false} WriteTryKeeps(s: State, t: nat, c: Choice, snap: Snap<Word>)
    requires Inv(s) && t < |s.pcs| && s.pcs[t] == WriteTry(snap)
    ensures Inv(StepWriteTry(s, t, c, snap))
  {
    hide Inv;
    if !Swaps(s, snap, c) {
      StayKeeps(s, t, WriteTry(Current(s)));
    } else if snap.word == Word(0, 0) {
      EnterKeeps(s, t, Writing);
    } else {
      ParkKeeps(s, t, WRITE_QUEUE, WriteParked);
    }
  }

  // ----- read_unlock -----

  /** While this task holds a read unit, only it can be the last reader. */
  lemma {:induction false} NoOtherLast(s: State, t: nat)
    requires Counts(s.word, s.pcs) && Local(s.word, AnyReader(s), s.pcs)
    requires t < |s.pcs| && ReadUnits(s.pcs[t]) == 1
    ensures forall i :: 0 <= i < |s.pcs| && i != t ==> !IsLast(s.pcs[i])
  {
    forall i | 0 <= i < |s.pcs| && i != t
      ensures !IsLast(s.pcs[i])
    {
      PcAt(s, i);
      SumTwo(s.pcs, ReadUnits, i, t);
    }
  }

  lemma {:induction false} NoOtherNotifier(word: Word, pcs: seq<Pc>, t: nat)
    requires Counts(word, pcs) && t < |pcs| && word.readers == 1
    requires ReadUnits(pcs[t]) == 1 && Tokens(pcs[t]) == 0 && Notifiers(pcs[t]) == 0
    ensures Sum(pcs, Notifiers) == 0
  {
    if Sum(pcs, Notifiers) > 0 {
      var k := SumPickOther(pcs, Notifiers, t);
      SumTwo(pcs, ReadUnits, k, t);
      SumAt(pcs, Tokens, k);
    }
  }

  lemma {:induction false} LookSees(word: Word, pcs: seq<Pc>, t: nat, snap: Snap<Word>)
    requires Counts(word, pcs) && t < |pcs| && snap.word == word
    requires pcs[t].Reading? || pcs[t] == CancelCheck(Reader, true) || pcs[t].ReadRelease?
    ensures word.readers >= 1
    ensures Notifiers(ReadRelease(snap)) <= Notifiers(pcs[t]) || Sum(pcs, Notifiers) == 0
  {
    SumAt(pcs, ReadUnits, t);
    if IsLast(ReadRelease(snap)) && !IsLast(pcs[t]) {
      NoOtherNotifier(word, pcs, t);
    }
  }

  lemma {:induction false} LookSafe(s: State, t: nat)
    requires Inv(s) && t < |s.pcs|
    requires s.pcs[t].Reading? || s.pcs[t] == CancelCheck(Reader, true) || s.pcs[t].ReadRelease?
    ensures s.word.readers >= 1
    ensures Notifiers(ReadRelease(Current(s))) <= Notifiers(s.pcs[t]) || Sum(s.pcs, Notifiers) == 0
  {
    LookSees(s.word, s.pcs, t, Current(s));
  }

  /** A reader that looks at the word sees its own unit; if it sees itself to be the
    last one before a writer then nobody else has the right to notify. */
  lemma {:induction false} LookKeeps(s: State, t: nat)
    requires Inv(s) && t < |s.pcs|
    requires s.pcs[t].Reading? || s.pcs[t] == CancelCheck(Reader, true) || s.pcs[t].ReadRelease?
    ensures Inv(Goto(s, t, ReadRelease(Current(s))))
  {
    hide Inv;
    LookSafe(s, t);
    StayKeeps(s, t, ReadRelease(Current(s)));
  }

  lemma {:induction false} ReadReleaseCounts(word: Word, pcs: seq<Pc>, t: nat)
    requires Counts(word, pcs) && t < |pcs| && pcs[t].ReadRelease? && !IsLast(pcs[t])
    requires word.readers >= 1 && !(word.readers == 1 && word.writers > 0)
    ensures Counts(Word(word.readers - 1, word.writers), pcs[t := Idle])
  {
    MoveUnits(pcs, t, Idle);
  }

  lemma {:induction false} ReadReleaseLocal(s: State, t: nat, word: Word)
    requires Counts(s.word, s.pcs) && Local(s.word, AnyReader(s), s.pcs) && t < |s.pcs| && s.pcs[t].ReadRelease?
    ensures Local(word, AnyReader(s), s.pcs[t := Idle])
  {
    NoOtherLast(s, t);
    LocalFollows(s.word, AnyReader(s), s.pcs, t, word, AnyReader(s), Idle);
  }

  lemma {:induction false} ReadReleaseKeeps(s: State, t: nat, c: Choice, snap: Snap<Word>)
    requires Inv(s) && t < |s.pcs| && s.pcs[t] == ReadRelease(snap)
    ensures Inv(StepReadRelease(s, t, c, snap))
  {
    hide Counts, Lawful, Local;
    PcAt(s, t);
    if IsLast(s.pcs[t]) {
      StayKeeps(s, t, LastReader(snap));
    } else if Swaps(s, snap, c) {
      ReadReleaseCounts(s.word, s.pcs, t);
      StayLaw(s.futex, Parts(s.pcs), t, PartOf(Idle));
      MapUpdate(s.pcs, PartOf, t, Idle);
      ReadReleaseLocal(s, t, Word(snap.word.readers - 1, snap.word.writers));
    } else {
      LookKeeps(s, t);
    }
  }

  // ----- taking the inbox -----

  /** With this task the only notifier and nothing in its hand, no waiter is in flight. */
  lemma {:induction false} HandsEmpty(word: Word, pcs: seq<Pc>, t: nat)
    requires Counts(word, pcs) && t < |pcs| && Notifiers(pcs[t]) == 1 && PartOf(pcs[t]).hand == []
    ensures Gather(Parts(pcs), HandOf) == multiset{}
  {
    Alone(word, pcs, t);
    forall i | 0 <= i < |pcs|
      ensures HandOf(Parts(pcs)[i]) == multiset{}
    {
      assert i != t ==> Notifiers(pcs[i]) == 0;
      assert Parts(pcs)[i] == PartOf(pcs[i]);
    }
    GatherEmpty(Parts(pcs), HandOf);
  }

  /** A writer that waits is found in the write queue once the inbox is distributed. */
  lemma {:induction false} WriterQueued(s: State, k: nat)
    requires Law(s) && Gather(Parts(s.pcs), HandOf) == multiset{}
    requires k < |s.pcs| && s.pcs[k] == WriteParked
    ensures Queue(Enqueue(s.futex), WRITE_QUEUE) != []
  {
    SleeperFound(s.futex, Parts(s.pcs), k);
  }

  /** Taking the inbox and popping the first writer into the hand. */
  lemma {:induction false} HandOverLaw(s: State, t: nat, word: Word)
    requires Law(s) && t < |s.pcs| && PartOf(s.pcs[t]) == OUTSIDE.(guard := 1, borrow := 1)
    requires Queue(Enqueue(s.futex), WRITE_QUEUE) != []
    ensures Law(HandOver(s, t, word))
    ensures Enqueue(s.futex).queues[WRITE_QUEUE][0].queue == WRITE_QUEUE
  {
    var e := Enqueue(s.futex);
    var w := e.queues[WRITE_QUEUE][0];
    EnqueueLaw(s.futex, Parts(s.pcs));
    assert e.queues[WRITE_QUEUE][..1] == [w];
    PopLaw(e, Parts(s.pcs), t, WRITE_QUEUE, 1, PartOf(HandDrop(w)));
    MapUpdate(s.pcs, PartOf, t, HandDrop(w));
  }

  lemma {:induction false} HandOverInOrder(s: State, t: nat, word: Word)
    requires InOrder(s) && t < |s.pcs| && |s.futex.queues| == 2
    requires Queue(Enqueue(s.futex), WRITE_QUEUE) != []
    ensures InOrder(HandOver(s, t, word))
  {
    var before := Queue(s.futex, WRITE_QUEUE) + OnQueue(s.futex.inbox, WRITE_QUEUE);
    var e := Enqueue(s.futex);
    assert e.queues[WRITE_QUEUE] == before;
    assert s.arrived == s.granted + before;
    assert before == [before[0]] + before[1..];
    assert OnQueue(Pop(e, WRITE_QUEUE, 1).inbox, WRITE_QUEUE) == [];
  }

  lemma {:induction false} HandOverCounts(word: Word, pcs: seq<Pc>, t: nat, word': Word, w: Waiter)
    requires Counts(word, pcs) && t < |pcs|
    requires || (pcs[t].LastTake? && word.readers == 1 && word' == Word(0, word.writers) && word.writers > 0)
             || (pcs[t].WriteDecide? && word.writers > 1 && word' == Word(word.readers, word.writers - 1))
    ensures Counts(word', pcs[t := HandDrop(w)])
  {
    MoveUnits(pcs, t, HandDrop(w));
    SumAt(pcs, Tokens, t);
  }

  lemma {:induction false} HandOverKeeps(s: State, t: nat, word: Word)
    requires Inv(s) && t < |s.pcs| && Queue(Enqueue(s.futex), WRITE_QUEUE) != []
    requires || (s.pcs[t].LastTake? && s.word.readers == 1 && word == Word(0, s.word.writers) && s.word.writers > 0)
             || (s.pcs[t].WriteDecide? && s.word.writers > 1 && word == Word(s.word.readers, s.word.writers - 1))
    ensures Inv(HandOver(s, t, word))
  {
    hide Counts, Lawful, Local, InOrder;
    var s' := HandOver(s, t, word);
    var w := Enqueue(s.futex).queues[WRITE_QUEUE][0];
    HandOverLaw(s, t, word);
    HandOverCounts(s.word, s.pcs, t, word, w);
    NotifierLocal(s.word, AnyReader(s), s.pcs, t, word, AnyReader(s'), HandDrop(w));
    HandOverInOrder(s, t, word);
  }

  // ----- the last reader hands over -----

  lemma {:induction false} LastTakeFindsWriter(s: State, t: nat)
    requires Counts(s.word, s.pcs) && Law(s) && t < |s.pcs| && s.pcs[t].LastTake?
    requires s.word.readers == 1 && s.word.writers > 0
    ensures Queue(Enqueue(s.futex), WRITE_QUEUE) != []
  {
    var k := SumPick(s.pcs, WriteUnits);
    SumAt(s.pcs, Tokens, k);
    HandsEmpty(s.word, s.pcs, t);
    WriterQueued(s, k);
  }

  lemma {:induction false} LastTakeKeeps(s: State, t: nat, c: Choice, snap: Snap<Word>)
    requires Inv(s) && t < |s.pcs| && s.pcs[t] == LastTake(snap)
    ensures Inv(StepLastTake(s, t, c, snap))
  {
    hide Counts, Law, Local;
    PcAt(s, t);
    if Swaps(s, snap, c) {
      LastTakeFindsWriter(s, t);
      HandOverKeeps(s, t, Word(0, snap.word.writers));
    } else {
      StayKeeps(s, t, LastTake(Current(s)));
    }
  }

  // ----- write_unlock -----

  /** With one writer counted, the owner, no writer waits. */
  lemma {:induction false} OnlyReadersWait(s: State, t: nat, w: Waiter)
    requires Counts(s.word, s.pcs) && Law(s) && Local(s.word, AnyReader(s), s.pcs)
    requires t < |s.pcs| && s.word.writers == 1 && s.pcs[t].WriteDecide?
    requires w in s.futex.inbox || w in s.futex.queues[WRITE_QUEUE]
    ensures w.queue == READ_QUEUE
  {
    hide Local, PcOk, Law;
    ListedIsAsleep(s, w);
    ParkedWriter(s, w);
    if w.queue == WRITE_QUEUE {
      SumTwo(s.pcs, WriteUnits, t, w.task);
    }
  }

  lemma {:induction false} ListedIsAsleep(s: State, w: Waiter)
    requires Law(s) && (w in s.futex.inbox || w in s.futex.queues[WRITE_QUEUE])
    ensures Waits(Parts(s.pcs), w)
  {
    ListedWaits(s.futex, Parts(s.pcs), w);
  }

  /** Whoever sleeps on the write queue is counted as a writer. */
  lemma {:induction false} ParkedWriter(s: State, w: Waiter)
    requires Local(s.word, AnyReader(s), s.pcs) && Waits(Parts(s.pcs), w)
    ensures w.queue == WRITE_QUEUE ==> s.pcs[w.task].WriteParked?
    ensures w.queue == WRITE_QUEUE || w.queue == READ_QUEUE
  {
    PcAt(s, w.task);
  }

  lemma {:induction false} DowngradeLists(s: State, t: nat)
    requires Counts(s.word, s.pcs) && Law(s) && Local(s.word, AnyReader(s), s.pcs)
    requires t < |s.pcs| && s.word.writers == 1 && s.pcs[t].WriteDecide?
    ensures s.futex.queues[WRITE_QUEUE] == [] && OnQueue(s.futex.inbox, WRITE_QUEUE) == []
    ensures OnQueue(s.futex.inbox, READ_QUEUE) == s.futex.inbox
  {
    var f := s.futex;
    if f.queues[WRITE_QUEUE] != [] {
      OnlyReadersWait(s, t, f.queues[WRITE_QUEUE][0]);
    }
    forall w | w in f.inbox
      ensures w.queue == READ_QUEUE
    {
      OnlyReadersWait(s, t, w);
    }
    OnQueueAll(f.inbox, READ_QUEUE);
    if OnQueue(f.inbox, WRITE_QUEUE) != [] {
      OnQueueMember(f.inbox, WRITE_QUEUE, OnQueue(f.inbox, WRITE_QUEUE)[0]);
    }
  }

  lemma {:induction false} DowngradeCounts(pcs: seq<Pc>, t: nat, next: Pc)
    requires Counts(Word(0, 1), pcs) && t < |pcs| && pcs[t].WriteDecide? && next.DownDrop?
    ensures Counts(Word(1, 0), pcs[t := next])
  {
    MoveUnits(pcs, t, next);
  }

  lemma {:induction false} DowngradeLaw(s: State, t: nat, snap: Snap<Word>)
    requires Law(s) && t < |s.pcs| && s.pcs[t].WriteDecide?
    requires Queue(Enqueue(s.futex), WRITE_QUEUE) == []
    ensures Law(Downgrade(s, t, snap))
    ensures forall w :: w in Queue(Enqueue(s.futex), READ_QUEUE) ==> w.queue == READ_QUEUE
  {
    var e := Enqueue(s.futex);
    var list := e.queues[READ_QUEUE];
    EnqueueLaw(s.futex, Parts(s.pcs));
    assert list[..|list|] == list;
    PopLaw(e, Parts(s.pcs), t, READ_QUEUE, |list|, PartOf(DownDrop(snap, list)));
    MapUpdate(s.pcs, PartOf, t, DownDrop(snap, list));
  }

  lemma {:induction false} DowngradeInOrder(s: State, t: nat, snap: Snap<Word>)
    requires InOrder(s) && t < |s.pcs| && |s.futex.queues| == 2 && Queue(Enqueue(s.futex), WRITE_QUEUE) == []
    ensures InOrder(Downgrade(s, t, snap))
  {
    var s' := Downgrade(s, t, snap);
    assert Queue(Enqueue(s.futex), WRITE_QUEUE) == s.futex.queues[WRITE_QUEUE] + OnQueue(s.futex.inbox, WRITE_QUEUE);
    assert s'.futex.queues[WRITE_QUEUE] == [] && OnQueue(s'.futex.inbox, WRITE_QUEUE) == [];
  }

  /** The owner becomes a reader itself and keeps all waiting readers in its hand. */
  lemma {:induction false} DowngradeKeeps(s: State, t: nat, snap: Snap<Word>, hasReaders: bool)
    requires Inv(s) && t < |s.pcs| && s.pcs[t] == WriteDecide(snap, hasReaders)
    requires s.word == Word(0, 1) && snap == Current(s) && (hasReaders || snap.inbox.Some?)
    ensures Inv(Downgrade(s, t, snap))
  {
    hide Counts, Lawful, Local, InOrder;
    PcAt(s, t);
    var s' := Downgrade(s, t, snap);
    var next := DownDrop(snap, Queue(Enqueue(s.futex), READ_QUEUE));
    DowngradeLists(s, t);
    assert Queue(Enqueue(s.futex), READ_QUEUE) == s.futex.queues[READ_QUEUE] + s.futex.inbox;
    DowngradeLaw(s, t, snap);
    DowngradeCounts(s.pcs, t, next);
    NotifierLocal(s.word, AnyReader(s), s.pcs, t, Word(1, 0), AnyReader(s'), next);
    DowngradeInOrder(s, t, snap);
  }

  lemma {:induction false} HandOffFindsWriter(s: State, t: nat)
    requires Counts(s.word, s.pcs) && Law(s) && t < |s.pcs| && s.pcs[t].WriteDecide? && s.word.writers > 1
    ensures Queue(Enqueue(s.futex), WRITE_QUEUE) != []
  {
    var k := SumPickOther(s.pcs, WriteUnits, t);
    Alone(s.word, s.pcs, t);
    HandsEmpty(s.word, s.pcs, t);
    WriterQueued(s, k);
  }

  lemma {:induction false} WriteDecideKeeps(s: State, t: nat, c: Choice, snap: Snap<Word>, hasReaders: bool)
    requires Inv(s) && t < |s.pcs| && s.pcs[t] == WriteDecide(snap, hasReaders)
    ensures Inv(StepWriteDecide(s, t, c, snap, hasReaders))
  {
    hide Counts, Law, Local, Calm, InOrder;
    PcAt(s, t);
    OwnerSees(s.word, s.pcs, t);
    if snap.word.writers == 1 && !hasReaders && snap.inbox.None? {
      ReturnKeeps(s, t, WriteFast(snap));
    } else if !Swaps(s, snap, c) {
      StayKeeps(s, t, WriteDecide(Current(s), hasReaders));
    } else if snap.word.writers == 1 {
      DowngradeKeeps(s, t, snap, hasReaders);
    } else {
      HandOffFindsWriter(s, t);
      HandOverKeeps(s, t, Word(snap.word.readers, snap.word.writers - 1));
    }
  }

  lemma {:induction false} WriteFastCounts(pcs: seq<Pc>, t: nat)
    requires Counts(Word(0, 1), pcs) && t < |pcs| && pcs[t].WriteFast?
    ensures Counts(Word(0, 0), pcs[t := Leave])
  {
    MoveUnits(pcs, t, Leave);
  }

  lemma {:induction false} WriteFastKeeps(s: State, t: nat, c: Choice, snap: Snap<Word>)
    requires Inv(s) && t < |s.pcs| && s.pcs[t] == WriteFast(snap)
    ensures Inv(StepWriteFast(s, t, c, snap))
  {
    hide Counts, Lawful, Local;
    PcAt(s, t);
    OwnerSees(s.word, s.pcs, t);
    if Swaps(s, snap, c) {
      WriteFastCounts(s.pcs, t);
      StayLaw(s.futex, Parts(s.pcs), t, PartOf(Leave));
      MapUpdate(s.pcs, PartOf, t, Leave);
      NotifierLocal(s.word, AnyReader(s), s.pcs, t, Word(0, 0), AnyReader(s), Leave);
    } else {
      StayKeeps(s, t, WriteRelock(Current(s)));
    }
  }

  // ----- the downgrade leader -----

  lemma {:induction false} DownCountCounts(word: Word, pcs: seq<Pc>, t: nat, list: seq<Waiter>)
    requires Counts(word, pcs) && t < |pcs| && pcs[t].DownCount? && list != []
    ensures word.readers >= 1
    ensures Counts(Word(word.readers + |list| - 1, word.writers), pcs[t := DownWake(list)])
  {
    SumAt(pcs, ReadUnits, t);
    MoveUnits(pcs, t, DownWake(list));
  }

  lemma {:induction false} DownCountKeeps(s: State, t: nat, c: Choice, snap: Snap<Word>, list: seq<Waiter>)
    requires Inv(s) && t < |s.pcs| && s.pcs[t] == DownCount(snap, list)
    ensures Inv(StepDownCount(s, t, c, snap, list))
  {
    hide Counts, Lawful, Local;
    PcAt(s, t);
    if Swaps(s, snap, c) {
      DownCountCounts(s.word, s.pcs, t, list);
      StayLaw(s.futex, Parts(s.pcs), t, PartOf(DownWake(list)));
      MapUpdate(s.pcs, PartOf, t, DownWake(list));
      NotifierLocal(s.word, AnyReader(s), s.pcs, t, Word(snap.word.readers + |list| - 1, snap.word.writers),
                    AnyReader(s), DownWake(list));
    } else {
      StayKeeps(s, t, DownCount(Current(s), list));
    }
  }

  // ----- waking -----

  lemma {:induction false} MoveTwo(word: Word, pcs: seq<Pc>, t: nat, next: Pc, k: nat, awake: Pc)
    requires Counts(word, pcs) && t < |pcs| && k < |pcs| && k != t
    requires ReadUnits(next) + ReadUnits(awake) == ReadUnits(pcs[t]) + ReadUnits(pcs[k])
    requires WriteUnits(next) + WriteUnits(awake) == WriteUnits(pcs[t]) + WriteUnits(pcs[k])
    requires Tokens(next) + Tokens(awake) == Tokens(pcs[t]) + Tokens(pcs[k])
    requires Notifiers(next) + Notifiers(awake) <= Notifiers(pcs[t]) + Notifiers(pcs[k])
    ensures Counts(word, pcs[t := next][k := awake])
  {
    MoveUnits(pcs, t, next);
    MoveUnits(pcs[t := next], k, awake);
  }

  /** Being woken takes a sleeper out of its list and hands it what it waited for. */
  lemma {:induction false} WokenHolds(word: Word, anyReader: bool, pc: Pc)
    requires PartOf(pc).waits.Some? && PcOk(word, anyReader, pc)
    ensures Woken(pc).Some?
    ensures var awake := Woken(pc).value;
            && PartOf(awake) == PartOf(pc).(waits := None) && PcOk(word, anyReader, awake)
            && ReadUnits(pc) == Tokens(pc) == Notifiers(pc) == 0 && WriteUnits(pc) == WriteUnits(awake)
            && (PartOf(pc).waits.value == READ_QUEUE ==>
                  ReadUnits(awake) == 1 && Tokens(awake) == Notifiers(awake) == 0)
            && (PartOf(pc).waits.value == WRITE_QUEUE ==>
                  ReadUnits(awake) == 0 && Tokens(awake) == Notifiers(awake) == 1)
  {
  }

  lemma {:induction false} WakeLawful(s: State, t: nat, w: Waiter, next: Pc)
    requires Law(s) && Local(s.word, AnyReader(s), s.pcs) && t < |s.pcs|
    requires PartOf(s.pcs[t]).hand != [] && w == PartOf(s.pcs[t]).hand[0]
    requires PartOf(next) == PartOf(s.pcs[t]).(hand := PartOf(s.pcs[t]).hand[1..])
    ensures w.task < |s.pcs| && w.task != t && PartOf(s.pcs[w.task]).waits == Some(w.queue)
    ensures Woken(s.pcs[w.task]).Some? && Law(Wake(s, t, w, next))
  {
    var parts := Parts(s.pcs);
    HandSleeps(s.futex, parts, t);
    PcAt(s, w.task);
    WokenHolds(s.word, AnyReader(s), s.pcs[w.task]);
    var awake := Woken(s.pcs[w.task]).value;
    WakeLaw(s.futex, parts, t, PartOf(next), PartOf(awake));
    MapUpdate(s.pcs, PartOf, t, next);
    MapUpdate(s.pcs[t := next], PartOf, w.task, awake);
  }

  lemma {:induction false} WakeLocal(s: State, t: nat, next: Pc, k: nat, awake: Pc)
    requires Local(s.word, AnyReader(s), s.pcs) && t < |s.pcs| && k < |s.pcs| && k != t
    requires PcOk(s.word, AnyReader(s), next) && PcOk(s.word, AnyReader(s), awake)
    ensures Local(s.word, AnyReader(s), s.pcs[t := next][k := awake])
  {
  }

  /** A writer in hand becomes the owner; a reader in hand takes one of the leader's units. */
  lemma {:induction false} WakeKeeps(s: State, t: nat, w: Waiter, next: Pc)
    requires Inv(s) && t < |s.pcs|
    requires || (s.pcs[t] == HandWake(w) && next == Leave)
             || (s.pcs[t].DownWake? && s.pcs[t].list != [] && w == s.pcs[t].list[0] && next == AfterWake(s.pcs[t].list))
    ensures Inv(Wake(s, t, w, next))
  {
    hide Counts, Lawful, Local;
    PcAt(s, t);
    WakeLawful(s, t, w, next);
    PcAt(s, w.task);
    WokenHolds(s.word, AnyReader(s), s.pcs[w.task]);
    hide PcOk, Woken;
    var awake := Woken(s.pcs[w.task]).value;
    MoveTwo(s.word, s.pcs, t, next, w.task, awake);
    WakeLocal(s, t, next, w.task, awake);
  }

  // ----- dropping a wait future -----

  /** Nobody watches the read queue while the exclusive guard is held. */
  lemma {:induction false} FlipLocal(s: State, t: nat, anyReader: bool, next: Pc)
    requires Law(s) && Local(s.word, AnyReader(s), s.pcs) && t < |s.pcs| && s.pcs[t].CancelFlip?
    requires PcOk(s.word, anyReader, next)
    ensures Local(s.word, anyReader, s.pcs[t := next])
  {
    ExclusiveAlone(s.futex, Parts(s.pcs), t);
    forall i | 0 <= i < |s.pcs|
      ensures !WatchesReaders(s.pcs[i])
    {
      assert Parts(s.pcs)[i] == PartOf(s.pcs[i]);
    }
    hide Law;
    forall i | 0 <= i < |s.pcs| && IsLast(s.pcs[i])
      ensures s.word.readers == 1 && s.word.writers > 0
    {
      PcAt(s, i);
    }
    LocalFollows(s.word, AnyReader(s), s.pcs, t, s.word, anyReader, next);
  }

  /** Here e is the futex after the flip, or the futex itself if the inbox was seen empty. */
  predicate Flipped(s: State, e: Futex, snap: Snap<Word>)
  {
    e == Enqueue(s.futex) || (e == s.futex && snap.inbox.None?)
  }

  lemma {:induction false} UnlinkLawful(s: State, e: Futex, t: nat, role: Role, woken: bool, snap: Snap<Word>)
    requires Law(s) && t < |s.pcs| && s.pcs[t] == CancelFlip(role, woken, snap) && Flipped(s, e, snap)
    ensures Law(Goto(s, t, CancelCheck(role, woken)).(futex := Include(Unlink(e, Waiter(t, QueueOf(role))))))
    ensures woken ==> Unlink(e, Waiter(t, QueueOf(role))).queues == e.queues
  {
    var parts := Parts(s.pcs);
    EnqueueLaw(s.futex, parts);
    var f' := Include(Unlink(e, Waiter(t, QueueOf(role))));
    UnlinkLaw(e, f', parts, t, QueueOf(role), PartOf(CancelCheck(role, woken)));
    MapUpdate(s.pcs, PartOf, t, CancelCheck(role, woken));
  }

  lemma {:induction false} FlipInOrder(s: State, e: Futex, snap: Snap<Word>)
    requires InOrder(s) && |s.futex.queues| == 2 && Flipped(s, e, snap)
    ensures InOrder(s.(futex := e))
  {
    if e == Enqueue(s.futex) {
      assert e.queues[WRITE_QUEUE] == s.futex.queues[WRITE_QUEUE] + OnQueue(s.futex.inbox, WRITE_QUEUE);
      assert OnQueue(e.inbox, WRITE_QUEUE) == [];
    }
  }

  /** The cancelled waiter leaves; all others stay where they are and in order. */
  lemma {:induction false} UnlinkKeeps(s: State, e: Futex, t: nat, role: Role, woken: bool, snap: Snap<Word>)
    requires Inv(s) && t < |s.pcs| && s.pcs[t] == CancelFlip(role, woken, snap) && Flipped(s, e, snap)
    ensures Inv(Goto(s, t, CancelCheck(role, woken)).(futex := Include(Unlink(e, Waiter(t, QueueOf(role))))))
  {
    hide Counts, Lawful, Local;
    PcAt(s, t);
    var s' := Goto(s, t, CancelCheck(role, woken)).(futex := Include(Unlink(e, Waiter(t, QueueOf(role)))));
    UnlinkLawful(s, e, t, role, woken, snap);
    CountsSame(s.word, s.pcs, t, CancelCheck(role, woken));
    FlipLocal(s, t, AnyReader(s'), CancelCheck(role, woken));
    FlipInOrder(s, e, snap);
  }

  lemma {:induction false} CancelFlipKeeps(s: State, t: nat, c: Choice, role: Role, woken: bool, snap: Snap<Word>)
    requires Inv(s) && t < |s.pcs| && s.pcs[t] == CancelFlip(role, woken, snap)
    ensures Inv(StepCancelFlip(s, t, c, role, woken, snap))
  {
    hide Counts, Law, Local, Calm, InOrder;
    if snap.inbox.None? {
      UnlinkKeeps(s, s.futex, t, role, woken, snap);
    } else if Swaps(s, snap, c) {
      UnlinkKeeps(s, Enqueue(s.futex), t, role, woken, snap);
    } else {
      PcAt(s, t);
      StayKeeps(s, t, CancelFlip(role, woken, Current(s)));
    }
  }

  // ----- every step, every run -----

  /** The steps of a task outside the lock or entering it. */
  lemma {:induction false} EntryKeeps(s: State, t: nat, c: Choice)
    requires Inv(s) && t < |s.pcs|
    requires s.pcs[t].Idle? || s.pcs[t].ReadTry? || s.pcs[t].WriteTry? || s.pcs[t].ReadParked? || s.pcs[t].WriteParked?
    ensures Inv(Step(s, t, c))
  {
    hide Inv, StepReadTry, StepWriteTry;
    match s.pcs[t]
    case Idle =>
      if c.op.StartRead? {
        StayKeeps(s, t, ReadTry(Current(s)));
      } else if c.op.StartWrite? {
        StayKeeps(s, t, WriteTry(Current(s)));
      }
    case ReadTry(snap) => ReadTryKeeps(s, t, c, snap);
    case WriteTry(snap) => WriteTryKeeps(s, t, c, snap);
    case ReadParked =>
      if c.op.Cancel? {
        StayKeeps(s, t, CancelWait(Reader, false));
      }
    case WriteParked =>
  }

  /** The steps of a task that has been granted the lock, up to its release. */
  lemma {:induction false} HolderKeeps(s: State, t: nat, c: Choice)
    requires Inv(s) && t < |s.pcs|
    requires s.pcs[t].ReadWoken? || s.pcs[t].Reading? || s.pcs[t].WriteWoken? || s.pcs[t].Writing?
    ensures Inv(Step(s, t, c))
  {
    hide Inv;
    match s.pcs[t]
    case ReadWoken => StayKeeps(s, t, if c.op.Cancel? then CancelWait(Reader, true) else Reading);
    case Reading => LookKeeps(s, t);
    case WriteWoken => StayKeeps(s, t, if c.op.Cancel? then CancelWait(Writer, true) else Writing);
    case Writing => StayKeeps(s, t, WriteRelease);
  }

  lemma {:induction false} CancelCheckKeeps(s: State, t: nat, c: Choice, role: Role, woken: bool)
    requires Inv(s) && t < |s.pcs| && s.pcs[t] == CancelCheck(role, woken)
    ensures Inv(Step(s, t, c))
  {
    hide Inv;
    PcHolds(s, t);
    if role.Writer? {
      StayKeeps(s, t, WriteRelease);
    } else if woken {
      LookKeeps(s, t);
    } else {
      StayKeeps(s, t, Idle);
    }
  }

  lemma {:induction false} CancelKeeps(s: State, t: nat, c: Choice)
    requires Inv(s) && t < |s.pcs|
    requires s.pcs[t].CancelWait? || s.pcs[t].CancelLocked? || s.pcs[t].CancelFlip? || s.pcs[t].CancelCheck?
    ensures Inv(Step(s, t, c))
  {
    hide Inv, StepCancelFlip;
    PcHolds(s, t);
    match s.pcs[t]
    case CancelWait(role, woken) =>
      if !s.futex.exclusive && s.futex.guards == 0 {
        ExcludeKeeps(s, t, role, woken);
      }
    case CancelLocked(role, woken) => StayKeeps(s, t, CancelFlip(role, woken, Current(s)));
    case CancelFlip(role, woken, snap) => CancelFlipKeeps(s, t, c, role, woken, snap);
    case CancelCheck(role, woken) => CancelCheckKeeps(s, t, c, role, woken);
  }

  lemma {:induction false} ReadUnlockKeeps(s: State, t: nat, c: Choice)
    requires Inv(s) && t < |s.pcs|
    requires s.pcs[t].ReadRelease? || s.pcs[t].LastReader? || s.pcs[t].LastGuarded? || s.pcs[t].LastTake?
    ensures Inv(Step(s, t, c))
  {
    hide Inv, StepReadRelease, StepLastTake, ShareGuard, Borrow;
    match s.pcs[t]
    case ReadRelease(snap) => ReadReleaseKeeps(s, t, c, snap);
    case LastReader(snap) => ShareKeeps(s, t, LastGuarded(snap));
    case LastGuarded(snap) => BorrowKeeps(s, t, LastTake(snap));
    case LastTake(snap) => LastTakeKeeps(s, t, c, snap);
  }

  lemma {:induction false} OwnerSafe(s: State, t: nat)
    requires Inv(s) && t < |s.pcs| && Tokens(s.pcs[t]) == 1
    ensures s.word.readers == 0 && s.word.writers >= 1
  {
    OwnerSees(s.word, s.pcs, t);
  }

  lemma {:induction false} WriteLookKeeps(s: State, t: nat)
    requires Inv(s) && t < |s.pcs| && s.pcs[t] == WriteBorrowed
    ensures Inv(Goto(s, t, WriteDecide(Current(s), AnyReader(s))))
  {
    hide Inv;
    OwnerSafe(s, t);
    StayKeeps(s, t, WriteDecide(Current(s), AnyReader(s)));
  }

  lemma {:induction false} WriteUnlockKeeps(s: State, t: nat, c: Choice)
    requires Inv(s) && t < |s.pcs|
    requires s.pcs[t].WriteRelease? || s.pcs[t].WriteGuarded? || s.pcs[t].WriteBorrowed?
          || s.pcs[t].WriteDecide? || s.pcs[t].WriteFast? || s.pcs[t].WriteRelock?
    ensures Inv(Step(s, t, c))
  {
    hide Inv, StepWriteDecide, StepWriteFast, ShareGuard, Borrow;
    match s.pcs[t]
    case WriteRelease => ShareKeeps(s, t, WriteGuarded);
    case WriteGuarded => BorrowKeeps(s, t, WriteBorrowed);
    case WriteBorrowed => WriteLookKeeps(s, t);
    case WriteDecide(snap, hasReaders) => WriteDecideKeeps(s, t, c, snap, hasReaders);
    case WriteFast(snap) => WriteFastKeeps(s, t, c, snap);
    case WriteRelock(snap) => BorrowKeeps(s, t, WriteDecide(snap, false));
  }

  lemma {:induction false} HandKeeps(s: State, t: nat, c: Choice)
    requires Inv(s) && t < |s.pcs| && (s.pcs[t].HandDrop? || s.pcs[t].HandWake? || s.pcs[t].Leave?)
    ensures Inv(Step(s, t, c))
  {
    hide Inv, Wake, Return;
    PcHolds(s, t);
    match s.pcs[t]
    case HandDrop(w) => ReturnKeeps(s, t, HandWake(w));
    case HandWake(w) => WakeKeeps(s, t, w, Leave);
    case Leave => LeaveKeeps(s, t);
  }

  lemma {:induction false} DownKeeps(s: State, t: nat, c: Choice)
    requires Inv(s) && t < |s.pcs| && (s.pcs[t].DownDrop? || s.pcs[t].DownCount? || s.pcs[t].DownWake?)
    ensures Inv(Step(s, t, c))
  {
    hide Inv, StepDownCount, Wake, Return;
    PcHolds(s, t);
    match s.pcs[t]
    case DownDrop(snap, list) => ReturnKeeps(s, t, DownCount(snap, list));
    case DownCount(snap, list) => DownCountKeeps(s, t, c, snap, list);
    case DownWake(list) => WakeKeeps(s, t, list[0], AfterWake(list));
  }

  lemma {:induction false} StepKeeps(s: State, t: nat, c: Choice)
    requires Inv(s) && t < |s.pcs|
    ensures Inv(Step(s, t, c))
  {
    hide Inv, Step;
    PcHolds(s, t);
    match s.pcs[t]
    case Idle | ReadTry(_) | WriteTry(_) | ReadParked | WriteParked => EntryKeeps(s, t, c);
    case ReadWoken | Reading | WriteWoken | Writing => HolderKeeps(s, t, c);
    case CancelWait(_, _) | CancelLocked(_, _) | CancelFlip(_, _, _) | CancelCheck(_, _) => CancelKeeps(s, t, c);
    case ReadRelease(_) | LastReader(_) | LastGuarded(_) | LastTake(_) => ReadUnlockKeeps(s, t, c);
    case WriteRelease | WriteGuarded | WriteBorrowed | WriteDecide(_, _) | WriteFast(_) | WriteRelock(_) =>
      WriteUnlockKeeps(s, t, c);
    case HandDrop(_) | HandWake(_) | Leave => HandKeeps(s, t, c);
    case DownDrop(_, _) | DownCount(_, _) | DownWake(_) => DownKeeps(s, t, c);
  }

  lemma {:induction false} InitKeeps(tasks: nat)
    ensures Inv(Init(tasks))
  {
    var s := Init(tasks);
    SumZero(s.pcs, ReadUnits);
    SumZero(s.pcs, WriteUnits);
    SumZero(s.pcs, Tokens);
    SumZero(s.pcs, Notifiers);
    NewLaw(2, Parts(s.pcs));
  }

  /** Every reachable state: any number of tasks, any interleaving, reader cancellation
    and spurious failures included. */
  lemma {:induction false} RunKeeps(tasks: nat, schedule: seq<(nat, Choice)>)
    ensures Inv(Run(Init(tasks), schedule))
    decreases |schedule|
  {
    if schedule == [] {
      InitKeeps(tasks);
    } else {
      var last := |schedule| - 1;
      RunKeeps(tasks, schedule[..last]);
      var p := Run(Init(tasks), schedule[..last]);
      var (t, c) := schedule[last];
      if t < |p.pcs| {
        hide Inv;
        StepKeeps(p, t, c);
      }
    }
  }

  lemma {:induction false} StepKeepsTasks(s: State, t: nat, c: Choice)
    requires t < |s.pcs|
    ensures |Step(s, t, c).pcs| == |s.pcs|
  {
  }

  lemma {:induction false} RunTasks(tasks: nat, schedule: seq<(nat, Choice)>)
    ensures |Run(Init(tasks), schedule).pcs| == tasks
    decreases |schedule|
  {
    hide Step;
    if schedule != [] {
      var last := |schedule| - 1;
      RunTasks(tasks, schedule[..last]);
      var p := Run(Init(tasks), schedule[..last]);
      var (t, c) := schedule[last];
      if t < |p.pcs| {
        StepKeepsTasks(p, t, c);
      }
    }
  }

  // ----- what a step does to other tasks -----

  /** The step moves no task but u. */
  predicate Moves(s: State, s': State, u: nat)
    requires u < |s.pcs|
  {
    |s'.pcs| == |s.pcs| && s'.pcs == s.pcs[u := s'.pcs[u]]
  }

  lemma {:induction false} EntryMoves(s: State, u: nat, c: Choice)
    requires u < |s.pcs|
    requires var pc := s.pcs[u];
             || pc.Idle? || pc.ReadTry? || pc.WriteTry? || pc.ReadParked? || pc.WriteParked?
             || pc.ReadWoken? || pc.Reading? || pc.WriteWoken? || pc.Writing? || pc.Crashed?
    ensures Moves(s, Step(s, u, c), u)
  {
  }

  lemma {:induction false} CancelMoves(s: State, u: nat, c: Choice)
    requires u < |s.pcs|
    requires s.pcs[u].CancelWait? || s.pcs[u].CancelLocked? || s.pcs[u].CancelFlip? || s.pcs[u].CancelCheck?
    ensures Moves(s, Step(s, u, c), u)
  {
  }

  lemma {:induction false} ReadUnlockMoves(s: State, u: nat, c: Choice)
    requires u < |s.pcs|
    requires s.pcs[u].ReadRelease? || s.pcs[u].LastReader? || s.pcs[u].LastGuarded? || s.pcs[u].LastTake?
    ensures Moves(s, Step(s, u, c), u)
  {
  }

  lemma {:induction false} WriteUnlockMoves(s: State, u: nat, c: Choice)
    requires u < |s.pcs|
    requires s.pcs[u].WriteRelease? || s.pcs[u].WriteGuarded? || s.pcs[u].WriteBorrowed?
          || s.pcs[u].WriteDecide? || s.pcs[u].WriteFast? || s.pcs[u].WriteRelock?
    ensures Moves(s, Step(s, u, c), u)
  {
  }

  lemma {:induction false} HandMoves(s: State, u: nat, c: Choice)
    requires u < |s.pcs|
    requires s.pcs[u].HandDrop? || s.pcs[u].DownDrop? || s.pcs[u].DownCount? || s.pcs[u].Leave?
    ensures Moves(s, Step(s, u, c), u)
  {
  }

  lemma {:induction false} WakeMoves(s: State, u: nat, w: Waiter, next: Pc, t: nat)
    requires u < |s.pcs| && t < |s.pcs| && t != u
    ensures var s' := Wake(s, u, w, next);
            && |s'.pcs| == |s.pcs|
            && (s'.pcs[t] == s.pcs[t] || Woken(s.pcs[t]) == Some(s'.pcs[t]))
  {
  }

  /** A step of another task moves this one at most by waking it. */
  lemma {:induction false} StepOfOther(s: State, u: nat, c: Choice, t: nat)
    requires u < |s.pcs| && t < |s.pcs| && u != t
    ensures var s' := Step(s, u, c);
            && |s'.pcs| == |s.pcs|
            && (s'.pcs[t] == s.pcs[t] || Woken(s.pcs[t]) == Some(s'.pcs[t]))
  {
    match s.pcs[u]
    case CancelWait(_, _) | CancelLocked(_, _) | CancelFlip(_, _, _) | CancelCheck(_, _) =>
      hide Step;
      CancelMoves(s, u, c);
    case ReadRelease(_) | LastReader(_) | LastGuarded(_) | LastTake(_) =>
      hide Step;
      ReadUnlockMoves(s, u, c);
    case WriteRelease | WriteGuarded | WriteBorrowed | WriteDecide(_, _) | WriteFast(_) | WriteRelock(_) =>
      hide Step;
      WriteUnlockMoves(s, u, c);
    case HandDrop(_) | DownDrop(_, _) | DownCount(_, _) | Leave =>
      hide Step;
      HandMoves(s, u, c);
    case HandWake(w) =>
      hide Wake;
      WakeMoves(s, u, w, Leave, t);
    case DownWake(list) =>
      hide Wake;
      if list != [] {
        WakeMoves(s, u, list[0], AfterWake(list), t);
      }
    case _ =>
      hide Step;
      EntryMoves(s, u, c);
  }

  // ----- what the lock promises -----

  /** A writer excludes every reader and every other writer. */
  lemma {:induction false} MutualExclusion(tasks: nat, schedule: seq<(nat, Choice)>, i: nat, j: nat)
    requires var s := Run(Init(tasks), schedule); i < |s.pcs| && j < |s.pcs| && i != j && s.pcs[i].Writing?
    ensures var s := Run(Init(tasks), schedule); !s.pcs[j].Writing? && !s.pcs[j].Reading?
  {
    var s := Run(Init(tasks), schedule);
    RunKeeps(tasks, schedule);
    SumTwo(s.pcs, Tokens, i, j);
    SumAt(s.pcs, ReadUnits, j);
  }

  /** The word counts exactly what the tasks hold. */
  lemma {:induction false} WordIsExact(tasks: nat, schedule: seq<(nat, Choice)>)
    ensures var s := Run(Init(tasks), schedule);
            s.word == Word(Sum(s.pcs, ReadUnits), Sum(s.pcs, WriteUnits))
  {
    RunKeeps(tasks, schedule);
  }

  /** No assertion, unwrap, subtraction, wake or queue borrow of the code ever fails. */
  lemma {:induction false} NeverCrashes(tasks: nat, schedule: seq<(nat, Choice)>, i: nat)
    requires i < |Run(Init(tasks), schedule).pcs|
    ensures !Run(Init(tasks), schedule).pcs[i].Crashed?
  {
    RunKeeps(tasks, schedule);
    PcAt(Run(Init(tasks), schedule), i);
  }

  /** At most one task holds the queue borrow. */
  lemma {:induction false} SingleBorrower(tasks: nat, schedule: seq<(nat, Choice)>, i: nat, j: nat)
    requires var s := Run(Init(tasks), schedule);
             i < |s.pcs| && j < |s.pcs| && i != j && PartOf(s.pcs[i]).borrow == 1
    ensures PartOf(Run(Init(tasks), schedule).pcs[j]).borrow == 0
  {
    var s := Run(Init(tasks), schedule);
    RunKeeps(tasks, schedule);
    SumTwo(Parts(s.pcs), BorrowOf, i, j);
  }

  /** The task has become a reader and not yet counted in those it is going to wake: it is
    between the two compare-and-swaps of a downgrade. */
  predicate Leads(pc: Pc)
  {
    pc.DownDrop? || pc.DownCount?
  }

  /** From the downgrade to the re-count the leader's unit keeps readers positive, no other
    reader sees itself as the last, and the snapshot from before the downgrade, which the
    leader still has until its first attempt has failed, is not what memory holds. */
  lemma {:induction false} DowngradeIsSafe(tasks: nat, schedule: seq<(nat, Choice)>, t: nat)
    requires var s := Run(Init(tasks), schedule); t < |s.pcs| && Leads(s.pcs[t])
    ensures var s := Run(Init(tasks), schedule);
            var pc := s.pcs[t];
            && s.word.readers >= 1
            && (pc.DownDrop? ==> pc.snap.word == Word(0, 1))
            && (pc.snap.word.readers == 0 ==> pc.snap != Current(s))
            && (forall j :: 0 <= j < |s.pcs| && j != t ==> !IsLast(s.pcs[j]))
  {
    hide Run, Init, Inv, IsLast;
    var s := Run(Init(tasks), schedule);
    RunKeeps(tasks, schedule);
    LeaderCounts(s, t);
    LeaderIsLast(s, t);
  }

  /** The re-count grants exactly one unit per popped reader in exchange for the leader's
    own, or fails and looks again. */
  lemma {:induction false} RecountIsExact(tasks: nat, schedule: seq<(nat, Choice)>, t: nat, c: Choice)
    requires var s := Run(Init(tasks), schedule); t < |s.pcs| && s.pcs[t].DownCount?
    ensures var s := Run(Init(tasks), schedule);
            var pc := s.pcs[t];
            var s' := Step(s, t, c);
            if !c.spurious && pc.snap == Current(s) then
              && s'.word.readers == s.word.readers - 1 + |pc.list| && s'.word.writers == s.word.writers
              && s'.pcs[t] == DownWake(pc.list)
            else
              s'.word == s.word && s'.pcs[t] == DownCount(Current(s), pc.list)
  {
    hide Run, Init, Inv;
    var s := Run(Init(tasks), schedule);
    RunKeeps(tasks, schedule);
    LeaderCounts(s, t);
  }

  lemma {:induction false} LeaderCounts(s: State, t: nat)
    requires Inv(s) && t < |s.pcs| && Leads(s.pcs[t])
    ensures s.word.readers >= 1 && s.pcs[t].list != []
    ensures s.pcs[t].DownDrop? ==> s.pcs[t].snap.word == Word(0, 1)
  {
    hide Law;
    SumAt(s.pcs, ReadUnits, t);
    PcAt(s, t);
  }

  lemma {:induction false} LeaderIsLast(s: State, t: nat)
    requires Inv(s) && t < |s.pcs| && Leads(s.pcs[t])
    ensures forall j :: 0 <= j < |s.pcs| && j != t ==> !IsLast(s.pcs[j])
  {
    hide Law;
    NoOtherLast(s, t);
  }

  lemma {:induction false} RunOne(tasks: nat, schedule: seq<(nat, Choice)>, t: nat, c: Choice)
    requires t < |Run(Init(tasks), schedule).pcs|
    ensures Run(Init(tasks), schedule + [(t, c)]) == Step(Run(Init(tasks), schedule), t, c)
  {
    hide Step;
    assert (schedule + [(t, c)])[..|schedule|] == schedule;
  }

  /** Turns of other tasks leave a task that is not waiting where it is. */
  lemma {:induction false} OthersLeave(tasks: nat, schedule: seq<(nat, Choice)>, others: seq<(nat, Choice)>, t: nat)
    requires var s := Run(Init(tasks), schedule); t < |s.pcs| && Woken(s.pcs[t]).None?
    requires forall i :: 0 <= i < |others| ==> others[i].0 != t
    ensures var s' := Run(Init(tasks), schedule + others);
            t < |s'.pcs| && s'.pcs[t] == Run(Init(tasks), schedule).pcs[t]
    decreases |others|
  {
    hide Step, Woken;
    if others == [] {
      assert schedule + others == schedule;
    } else {
      var last := |others| - 1;
      var before := schedule + others[..last];
      OthersLeave(tasks, schedule, others[..last], t);
      assert (schedule + others)[..|schedule + others| - 1] == before;
      var (u, c) := others[last];
      var p := Run(Init(tasks), before);
      if u < |p.pcs| {
        StepOfOther(p, u, c, t);
      }
    }
  }

  /** The leader's first attempt to re-count always fails: whatever others do, between the
    downgrade and that attempt it keeps the snapshot from before the downgrade. */
  lemma {:induction false} FirstRecountFails(tasks: nat, schedule: seq<(nat, Choice)>, before: seq<(nat, Choice)>,
        after: seq<(nat, Choice)>, t: nat, dropping: Choice, c: Choice)
    requires var s := Run(Init(tasks), schedule); t < |s.pcs| && s.pcs[t].DownDrop?
    requires forall i :: 0 <= i < |before| ==> before[i].0 != t
    requires forall i :: 0 <= i < |after| ==> after[i].0 != t
    ensures var pc := Run(Init(tasks), schedule).pcs[t];
            var s := Run(Init(tasks), schedule + before + [(t, dropping)] + after);
            && t < |s.pcs| && s.pcs[t] == DownCount(pc.snap, pc.list)
            && Step(s, t, c).pcs[t] == DownCount(Current(s), pc.list) && Step(s, t, c).word == s.word
  {
    hide Run, Init, Inv, Woken;
    var first := schedule + before;
    var second := first + [(t, dropping)];
    NotWoken();
    DowngradeIsSafe(tasks, schedule, t);
    OthersLeave(tasks, schedule, before, t);
    RunOne(tasks, first, t, dropping);
    OthersLeave(tasks, second, after, t);
    DowngradeIsSafe(tasks, second + after, t);
    RecountIsExact(tasks, second + after, t, c);
  }

  lemma {:induction false} NotWoken()
    ensures forall snap, list :: Woken(DownDrop(snap, list)).None? && Woken(DownCount(snap, list)).None?
  {
  }

  /** Whoever is in a list of the lock waits for a writer. */
  lemma {:induction false} ListedNeedsWriter(tasks: nat, schedule: seq<(nat, Choice)>, w: Waiter)
    requires w in Lists(Run(Init(tasks), schedule).futex)
    ensures Run(Init(tasks), schedule).word.writers > 0
  {
    hide Run, Init;
    var s := Run(Init(tasks), schedule);
    RunKeeps(tasks, schedule);
    if s.word.writers == 0 {
      EmptyWithoutWriter(s);
    }
  }

  lemma {:induction false} EmptyWithoutWriter(s: State)
    requires Inv(s) && s.word.writers == 0
    ensures Lists(s.futex) == multiset{}
  {
    hide Lawful, PcOk;
    if s.futex.queues[WRITE_QUEUE] != [] {
      var w := s.futex.queues[WRITE_QUEUE][0];
      WriterIsCounted(s, w);
    }
    forall q | 0 <= q < |s.futex.queues|
      ensures s.futex.queues[q] == []
    {
      assert q == READ_QUEUE || q == WRITE_QUEUE;
    }
    GatherEmpty(s.futex.queues, AsMultiset);
  }

  lemma {:induction false} WriterIsCounted(s: State, w: Waiter)
    requires Inv(s) && w in s.futex.queues[WRITE_QUEUE]
    ensures s.word.writers > 0
  {
    hide Lawful;
    WriterParked(s, w);
    SumAt(s.pcs, WriteUnits, w.task);
  }

  lemma {:induction false} WriterParked(s: State, w: Waiter)
    requires Inv(s) && w in s.futex.queues[WRITE_QUEUE]
    ensures w.task < |s.pcs| && s.pcs[w.task].WriteParked?
  {
    hide Counts;
    ListedIsAsleep(s, w);
    ParkedWriter(s, w);
    QueueTag(s, w);
  }

  lemma {:induction false} QueueTag(s: State, w: Waiter)
    requires Law(s) && w in s.futex.queues[WRITE_QUEUE]
    ensures w.queue == WRITE_QUEUE
  {
    hide Tally, Locked, Away, PartsOk;
  }

  /** The reader has been popped by the leader of a downgrade and is going to be woken. */
  predicate AboutToWake(pc: Pc, i: nat)
  {
    (Leads(pc) || pc.DownWake?) && Waiter(i, READ_QUEUE) in pc.list
  }

  /** A writer holds the lock and a reader parks. */
  function ToPark(): seq<(nat, Choice)>
  {
    var go := Choice(Proceed, false);
    [(0, Choice(StartWrite, false)), (0, go), (1, Choice(StartRead, false)), (1, go)]
  }

  lemma {:induction false} Parks()
    ensures Run(Init(2), ToPark())
         == State(Word(0, 1), New(2).(inbox := [Waiter(1, READ_QUEUE)]), [Writing, ReadParked], [], [])
  {
    hide Run;
    var go := Choice(Proceed, false);
    var s0 := Init(2);
    assert s0.pcs == [Idle, Idle] && s0 == Run(s0, []) by { Nothing(s0); }
    RunOne(2, [], 0, Choice(StartWrite, false));
    var one := [] + [(0, Choice(StartWrite, false))];
    RunOne(2, one, 0, go);
    var two := one + [(0, go)];
    RunOne(2, two, 1, Choice(StartRead, false));
    var three := two + [(1, Choice(StartRead, false))];
    RunOne(2, three, 1, go);
    assert three + [(1, go)] == ToPark();
  }

  lemma {:induction false} Nothing(s: State)
    ensures Run(s, []) == s
  {
  }

  /** Then the writer downgrades. */
  function ToDowngrade(): seq<(nat, Choice)>
  {
    var go := Choice(Proceed, false);
    ToPark() + [(0, go)] + [(0, go)] + [(0, go)] + [(0, go)] + [(0, go)]
  }

  /** No writer is left then, and the reader is still parked. */
  lemma {:induction false} ReaderOutlastsWriter()
    ensures var s := Run(Init(2), ToDowngrade());
            |s.pcs| == 2 && s.pcs[1].ReadParked? && s.word == Word(1, 0)
  {
    hide Run, Init, ToPark;
    Parks();
    var turn := [(0, Choice(Proceed, false))];
    RunOne(2, ToPark(), 0, turn[0].1);
    RunOne(2, ToPark() + turn, 0, turn[0].1);
    RunOne(2, ToPark() + turn + turn, 0, turn[0].1);
    RunOne(2, ToPark() + turn + turn + turn, 0, turn[0].1);
    var s := Run(Init(2), ToPark() + turn + turn + turn + turn);
    assert s.pcs == [WriteDecide(Snap(Word(0, 1), Some(Waiter(1, READ_QUEUE))), false), ReadParked];
    assert OnQueue(s.futex.inbox, WRITE_QUEUE) == [] && OnQueue(s.futex.inbox, READ_QUEUE) == s.futex.inbox;
    RunOne(2, ToPark() + turn + turn + turn + turn, 0, turn[0].1);
  }

  /** A parked reader waits for a writer, or is about to be woken by the leader of a
    downgrade; without the second case it would not be true. */
  lemma {:induction false} ParkedReader(tasks: nat, schedule: seq<(nat, Choice)>, i: nat)
    requires var s := Run(Init(tasks), schedule); i < |s.pcs| && s.pcs[i].ReadParked?
    ensures var s := Run(Init(tasks), schedule);
            s.word.writers > 0 || exists k :: 0 <= k < |s.pcs| && AboutToWake(s.pcs[k], i)
  {
    hide Run, Init;
    var s := Run(Init(tasks), schedule);
    RunKeeps(tasks, schedule);
    if s.word.writers == 0 {
      EmptyWithoutWriter(s);
      var k := ReaderInHand(s, i);
    }
  }

  lemma {:induction false} ReaderInHand(s: State, i: nat) returns (k: nat)
    requires Inv(s) && i < |s.pcs| && s.pcs[i].ReadParked? && Lists(s.futex) == multiset{}
    ensures k < |s.pcs| && AboutToWake(s.pcs[k], i)
  {
    hide Counts, Tagged, Locked, Away, PartsOk;
    var parts, w := Parts(s.pcs), Waiter(i, READ_QUEUE);
    assert Waits(parts, w);
    assert Listed(s.futex, parts)[w] == 1;
    k := GatherPick(parts, HandOf, w);
    PcAt(s, k);
    assert parts[k] == PartOf(s.pcs[k]);
  }

  lemma {:induction false} InOrderIsPrefix(s: State)
    requires InOrder(s)
    ensures s.granted <= s.arrived
  {
  }

  /** Writers come to own the lock in the order in which they began to wait. */
  lemma {:induction false} WritersInOrder(tasks: nat, schedule: seq<(nat, Choice)>)
    ensures var s := Run(Init(tasks), schedule); s.granted <= s.arrived
  {
    RunKeeps(tasks, schedule);
    InOrderIsPrefix(Run(Init(tasks), schedule));
  }

  /** The task sleeps in a list of the lock. */
  predicate Asleep(pc: Pc)
  {
    PartOf(pc).waits.Some?
  }

  /** A sleeping task has somebody to wake it: an owner, a reader, or a grant under way. */
  lemma {:induction false} NoLostWakeup(tasks: nat, schedule: seq<(nat, Choice)>, i: nat) returns (k: nat)
    requires var s := Run(Init(tasks), schedule); i < |s.pcs| && Asleep(s.pcs[i])
    ensures var s := Run(Init(tasks), schedule);
            k < |s.pcs| && k != i && Tokens(s.pcs[k]) + ReadUnits(s.pcs[k]) > 0
  {
    var s := Run(Init(tasks), schedule);
    RunKeeps(tasks, schedule);
    PcAt(s, i);
    WokenHolds(s.word, AnyReader(s), s.pcs[i]);
    if s.word.readers > 0 {
      k := SumPickOther(s.pcs, ReadUnits, i);
    } else if s.word.writers > 0 {
      k := SumPickOther(s.pcs, Tokens, i);
    } else {
      k := SleeperInHand(s, i);
    }
  }

  /** With the word at zero the only place left for a sleeper is a hand. */
  lemma {:induction false} SleeperInHand(s: State, i: nat) returns (k: nat)
    requires Counts(s.word, s.pcs) && Law(s) && Local(s.word, AnyReader(s), s.pcs) && Calm(s)
    requires i < |s.pcs| && Asleep(s.pcs[i]) && s.word == Word(0, 0)
    ensures k < |s.pcs| && k != i && Tokens(s.pcs[k]) + ReadUnits(s.pcs[k]) > 0
  {
    SumAt(s.pcs, WriteUnits, i);
    PcAt(s, i);
    var parts := Parts(s.pcs);
    if forall j :: 0 <= j < |parts| ==> parts[j].hand == [] {
      GatherEmpty(parts, HandOf);
      SleeperFound(s.futex, parts, i);
      assert false;
    } else {
      k :| 0 <= k < |parts| && parts[k].hand != [];
      PcAt(s, k);
    }
  }

  /** Nobody holds the lock, is in an operation or has been woken. */
  predicate AtRest(s: State)
  {
    forall i :: 0 <= i < |s.pcs| ==> s.pcs[i].Idle? || s.pcs[i].ReadParked? || s.pcs[i].WriteParked?
  }

  /** At rest nobody sleeps, the word is zero and every list is empty. */
  lemma {:induction false} RestIsEmpty(tasks: nat, schedule: seq<(nat, Choice)>)
    requires AtRest(Run(Init(tasks), schedule))
    ensures var s := Run(Init(tasks), schedule);
            && s.word == Word(0, 0) && Lists(s.futex) == multiset{}
            && forall i :: 0 <= i < |s.pcs| ==> s.pcs[i] == Idle
  {
    hide Run, Init, Counts, Law, Local, PcOk, PartOf, Tokens, ReadUnits;
    var s := Run(Init(tasks), schedule);
    RunKeeps(tasks, schedule);
    forall i | 0 <= i < |s.pcs|
      ensures s.pcs[i] == Idle
    {
      if s.pcs[i] != Idle {
        SleeperHasPart(s.pcs[i]);
        var k := NoLostWakeup(tasks, schedule, i);
        RestingHoldsNothing(s.pcs[k]);
      }
    }
    IdleWord(s);
    NobodyListed(s);
  }

  lemma {:induction false} SleeperHasPart(pc: Pc)
    requires pc.ReadParked? || pc.WriteParked?
    ensures Asleep(pc)
  {
  }

  lemma {:induction false} RestingHoldsNothing(pc: Pc)
    requires pc.Idle? || pc.ReadParked? || pc.WriteParked?
    ensures Tokens(pc) + ReadUnits(pc) == 0
  {
  }

  lemma {:induction false} IdleWord(s: State)
    requires Counts(s.word, s.pcs) && forall i :: 0 <= i < |s.pcs| ==> s.pcs[i] == Idle
    ensures s.word == Word(0, 0)
  {
    SumZero(s.pcs, ReadUnits);
    SumZero(s.pcs, WriteUnits);
  }

  lemma {:induction false} NobodyListed(s: State)
    requires Law(s) && forall i :: 0 <= i < |s.pcs| ==> s.pcs[i] == Idle
    ensures Lists(s.futex) == multiset{}
  {
    forall w: Waiter
      ensures Lists(s.futex)[w] == 0
    {
      assert Listed(s.futex, Parts(s.pcs))[w] == 0;
    }
  }
}
