/** The fair mutex and the condition variable that releases and refills it, as one
  transition system over two futexes.

  One step of a task is one access to shared memory, as in RwLock. A waiter of the
  condition variable may be moved to the mutex's futex while its own task is still
  unlocking the mutex, so the waker slot is kept apart from the program counter. The
  owner field names the futex a waiter belongs to; notify stores it waiter by waiter.
 */
module FairMutex {
  import opened Futex
  import opened Options

  datatype Side = OfMutex | OfCondvar

  datatype Slot = Off | Waiting | Done

  /** cv: the step belongs to Condvar.wait rather than to Mutex.lock. */
  datatype Pc =
    | Idle
    // lock()
    | LockTry(snap: Snap<nat>)
    | Parked(cv: bool)
    | Locked
    // unlock(); within wait() it runs as soon as the waiter is in the inbox
    | UnlockShare(cv: bool)
    | UnlockBorrow(cv: bool)
    | UnlockPop(cv: bool)
    | UnlockDecide(cv: bool, snap: Snap<nat>)
    | UnlockFree(cv: bool, snap: Snap<nat>)
    | UnlockRelock(cv: bool, snap: Snap<nat>)
    | HandDrop(cv: bool, w: Waiter)
    | HandWake(cv: bool, w: Waiter)
    | UnlockLeave(cv: bool)
    // wait()
    | WaitTry(snap: Snap<nat>)
    // notify()
    | NotifyShare(snap: Snap<nat>, count: nat)
    | NotifyBorrow(snap: Snap<nat>, count: nat)
    | NotifyTake(snap: Snap<nat>, count: nat)
    | NotifyDrop(list: seq<Waiter>)
    | NotifyMutex(list: seq<Waiter>)
    | NotifyStore(list: seq<Waiter>, stored: nat)
    | NotifyPush(list: seq<Waiter>, snap: Snap<nat>)
    | NotifyLeaveMutex
    | NotifyLeave
    // dropping a wait future
    | CancelWait(cv: bool, side: Side)
    | CancelHeld(cv: bool, side: Side)
    | CancelBack(cv: bool, side: Side, owner: Side)
    | CancelLoad(cv: bool, side: Side)
    | CancelFlip(cv: bool, side: Side, snap: Snap<nat>)
    | CancelCheck(cv: bool)
    // a sleeping wait on the condition variable has no cancellation code
    | Unimplemented
    // an assertion, unwrap or panic of the code has been reached
    | Crashed

  /** home is a history: the futex the waiter is accounted to, which changes when notify
    publishes its list. */
  datatype Task = Task(pc: Pc, slot: Slot, owner: Side, home: Side)

  /** word: 1 if the mutex is locked. used: 1 once the condition variable has a mutex.
    carrier is a history: the task that has the right to the mutex. */
  datatype State = State(word: nat, m: Futex, used: nat, c: Futex, tasks: seq<Task>, carrier: Option<nat>)

  datatype Op = Proceed | StartLock | StartWait | StartNotify(count: nat) | Cancel

  datatype Choice = Choice(op: Op, spurious: bool)

  function Init(tasks: nat): State
  {
    State(0, New(1), 0, New(1), seq(tasks, _ => Task(Idle, Off, OfMutex, OfMutex)), None)
  }

  function Mutex(s: State): Snap<nat>
  {
    Snap(s.word, Top(s.m))
  }

  function Condvar(s: State): Snap<nat>
  {
    Snap(s.used, Top(s.c))
  }

  function Goto(s: State, t: nat, pc: Pc): State
    requires t < |s.tasks|
  {
    s.(tasks := s.tasks[t := s.tasks[t].(pc := pc)])
  }

  // ----- the futex of a side -----

  function Of(s: State, side: Side): Futex
  {
    match side case OfMutex => s.m case OfCondvar => s.c
  }

  function With(s: State, side: Side, f: Futex): State
  {
    match side case OfMutex => s.(m := f) case OfCondvar => s.(c := f)
  }

  function Look(s: State, side: Side): Snap<nat>
  {
    match side case OfMutex => Mutex(s) case OfCondvar => Condvar(s)
  }

  function ShareGuard(s: State, t: nat, side: Side, next: Pc): State
    requires t < |s.tasks|
  {
    if Of(s, side).exclusive then s else With(Goto(s, t, next), side, Share(Of(s, side)))
  }

  function UnshareGuard(s: State, t: nat, side: Side, next: Pc): State
    requires t < |s.tasks|
  {
    With(Goto(s, t, next), side, Unshare(Of(s, side)))
  }

  function Borrow(s: State, t: nat, side: Side, next: Pc): State
    requires t < |s.tasks|
  {
    if Of(s, side).borrowed then Goto(s, t, Crashed)
    else With(Goto(s, t, next), side, TakeBorrow(Of(s, side)))
  }

  function Return(s: State, t: nat, side: Side, next: Pc): State
    requires t < |s.tasks|
  {
    With(Goto(s, t, next), side, DropBorrow(Of(s, side)))
  }

  /** A wait that takes effect: the waiter is on top of the inbox of its futex. */
  function Park(s: State, t: nat, side: Side, next: Pc): State
    requires t < |s.tasks|
  {
    With(s.(tasks := s.tasks[t := Task(next, Waiting, side, side)]), side, Push(Of(s, side), Waiter(t, 0)))
  }

  // ----- unlock -----

  function AfterUnlock(cv: bool): Pc
  {
    if cv then Parked(true) else Idle
  }

  function Take(s: State, t: nat, cv: bool, f: Futex): State
    requires t < |s.tasks|
  {
    if Front(f) == [] then Goto(s, t, Crashed)
    else Goto(s, t, HandDrop(cv, f.queues[0][0])).(m := Pop(f, 0, 1))
  }

  function StepUnlockDecide(s: State, t: nat, c: Choice, cv: bool, snap: Snap<nat>): State
    requires t < |s.tasks|
  {
    if snap.inbox.None? then Return(s, t, OfMutex, UnlockFree(cv, snap))
    else if !c.spurious && snap == Mutex(s) then Take(s, t, cv, Enqueue(s.m)).(word := 1)
    else Goto(s, t, UnlockDecide(cv, Mutex(s)))
  }

  function StepUnlockFree(s: State, t: nat, c: Choice, cv: bool, snap: Snap<nat>): State
    requires t < |s.tasks|
  {
    if !c.spurious && snap == Mutex(s) then Goto(s, t, UnlockLeave(cv)).(word := 0, carrier := None)
    else Goto(s, t, UnlockRelock(cv, Mutex(s)))
  }

  function Wake(s: State, t: nat, w: Waiter, next: Pc): State
    requires t < |s.tasks|
  {
    if w.task < |s.tasks| && w.task != t && s.tasks[w.task].slot.Waiting? then
      Goto(s, t, next).(tasks := Goto(s, t, next).tasks[w.task := s.tasks[w.task].(slot := Done)],
                        carrier := Some(w.task))
    else Goto(s, t, Crashed)
  }

  // ----- lock and wait -----

  function StepLockTry(s: State, t: nat, c: Choice, snap: Snap<nat>): State
    requires t < |s.tasks|
  {
    if c.spurious || snap != Mutex(s) then Goto(s, t, LockTry(Mutex(s)))
    else if snap.word == 0 then Goto(s, t, Locked).(word := 1, carrier := Some(t))
    else Park(s, t, OfMutex, Parked(false)).(word := 1)
  }

  /** The task holds the mutex until its waiter is in the inbox, and only then unlocks. */
  function StepWaitTry(s: State, t: nat, c: Choice, snap: Snap<nat>): State
    requires t < |s.tasks|
  {
    if snap.word > 1 then Goto(s, t, Crashed)
    else if c.spurious || snap != Condvar(s) then Goto(s, t, WaitTry(Condvar(s)))
    else Park(s, t, OfCondvar, UnlockShare(true)).(used := 1)
  }

  /** A finished wait returns the guard. */
  function StepParked(s: State, t: nat, c: Choice, cv: bool): State
    requires t < |s.tasks|
  {
    if c.op.Cancel? then Goto(s, t, CancelWait(cv, s.tasks[t].owner))
    else if s.tasks[t].slot.Done? then s.(tasks := s.tasks[t := s.tasks[t].(pc := Locked, slot := Off)])
    else s
  }

  // ----- notify -----

  function Min(a: nat, b: nat): nat
  {
    if a < b then a else b
  }

  function StepNotifyTake(s: State, t: nat, c: Choice, snap: Snap<nat>, count: nat): State
    requires t < |s.tasks|
  {
    if c.spurious || snap != Condvar(s) || |s.c.queues| == 0 then Goto(s, t, NotifyTake(Condvar(s), count))
    else
      var e := Enqueue(s.c);
      var n := Min(count, |e.queues[0]|);
      Goto(s, t, NotifyDrop(e.queues[0][..n])).(used := 1, c := Pop(e, 0, n))
  }

  /** The next waiter of the list is told its new owner; then the mutex is looked at. */
  function StepNotifyStore(s: State, t: nat, list: seq<Waiter>, stored: nat): State
    requires t < |s.tasks|
  {
    if stored < |list| then
      if list[stored].task < |s.tasks| then
        Goto(s.(tasks := s.tasks[list[stored].task := s.tasks[list[stored].task].(owner := OfMutex)]), t,
             NotifyStore(list, stored + 1))
      else Goto(s, t, Crashed)
    else Goto(s, t, NotifyPush(list, Mutex(s)))
  }

  /** The tasks of the list are from now on accounted to the mutex. */
  function Rehome(tasks: seq<Task>, list: seq<Waiter>): seq<Task>
    decreases |list|
  {
    if list == [] then tasks
    else
      var k := list[0].task;
      Rehome(if k < |tasks| then tasks[k := tasks[k].(home := OfMutex)] else tasks, list[1..])
  }

  function StepNotifyPush(s: State, t: nat, c: Choice, list: seq<Waiter>, snap: Snap<nat>): State
    requires t < |s.tasks|
  {
    if c.spurious || snap != Mutex(s) then Goto(s, t, NotifyPush(list, Mutex(s)))
    else s.(m := s.m.(inbox := s.m.inbox + list),
            tasks := Rehome(s.tasks[t := s.tasks[t].(pc := NotifyLeaveMutex)], list))
  }

  // ----- dropping a wait future -----

  function StepCancelFlip(s: State, t: nat, c: Choice, cv: bool, side: Side, snap: Snap<nat>): State
    requires t < |s.tasks|
  {
    var f := Of(s, side);
    if snap.inbox.None? then
      With(Goto(s, t, CancelCheck(cv)), side, Include(Unlink(f, Waiter(t, 0))))
    else if !c.spurious && snap == Look(s, side) then
      With(Goto(s, t, CancelCheck(cv)), side, Include(Unlink(Enqueue(f), Waiter(t, 0))))
    else Goto(s, t, CancelFlip(cv, side, Look(s, side)))
  }

  /** A waiter woken before its wait was dropped owns the mutex and unlocks it. */
  function StepCancelCheck(s: State, t: nat, cv: bool): State
    requires t < |s.tasks|
  {
    match s.tasks[t].slot
    case Off => Goto(s, t, Crashed)
    case Waiting => s.(tasks := s.tasks[t := s.tasks[t].(pc := if cv then Unimplemented else Idle, slot := Off)])
    case Done => s.(tasks := s.tasks[t := s.tasks[t].(pc := UnlockShare(false), slot := Off)])
  }

  /** One step of task t. A step that is not enabled leaves the state as it is. */
  function Step(s: State, t: nat, c: Choice): State
    requires t < |s.tasks|
  {
    match s.tasks[t].pc
    case Idle => if c.op.StartLock? then Goto(s, t, LockTry(Mutex(s))) else s
    case LockTry(snap) => StepLockTry(s, t, c, snap)
    case Parked(cv) => StepParked(s, t, c, cv)
    case Locked =>
      if c.op.StartWait? then Goto(s, t, WaitTry(Condvar(s)))
      else if c.op.StartNotify? then
        if s.used == 0 then s else Goto(s, t, NotifyShare(Condvar(s), c.op.count))
      else Goto(s, t, UnlockShare(false))
    case UnlockShare(cv) => ShareGuard(s, t, OfMutex, UnlockBorrow(cv))
    case UnlockBorrow(cv) => Borrow(s, t, OfMutex, UnlockPop(cv))
    case UnlockPop(cv) =>
      if Front(s.m) != [] then Take(s, t, cv, s.m) else Goto(s, t, UnlockDecide(cv, Mutex(s)))
    case UnlockDecide(cv, snap) => StepUnlockDecide(s, t, c, cv, snap)
    case UnlockFree(cv, snap) => StepUnlockFree(s, t, c, cv, snap)
    case UnlockRelock(cv, snap) => Borrow(s, t, OfMutex, UnlockDecide(cv, snap))
    case HandDrop(cv, w) => Return(s, t, OfMutex, HandWake(cv, w))
    case HandWake(cv, w) => Wake(s, t, w, UnlockLeave(cv))
    case UnlockLeave(cv) => UnshareGuard(s, t, OfMutex, AfterUnlock(cv))
    case WaitTry(snap) => StepWaitTry(s, t, c, snap)
    case NotifyShare(snap, count) => ShareGuard(s, t, OfCondvar, NotifyBorrow(snap, count))
    case NotifyBorrow(snap, count) => Borrow(s, t, OfCondvar, NotifyTake(snap, count))
    case NotifyTake(snap, count) => StepNotifyTake(s, t, c, snap, count)
    case NotifyDrop(list) => Return(s, t, OfCondvar, NotifyMutex(list))
    case NotifyMutex(list) => ShareGuard(s, t, OfMutex, if list == [] then NotifyLeaveMutex else NotifyStore(list, 0))
    case NotifyStore(list, stored) => StepNotifyStore(s, t, list, stored)
    case NotifyPush(list, snap) => StepNotifyPush(s, t, c, list, snap)
    case NotifyLeaveMutex => UnshareGuard(s, t, OfMutex, NotifyLeave)
    case NotifyLeave => UnshareGuard(s, t, OfCondvar, Locked)
    case CancelWait(cv, side) =>
      if Of(s, side).exclusive || Of(s, side).guards > 0 then s
      else With(Goto(s, t, CancelHeld(cv, side)), side, Exclude(Of(s, side)))
    case CancelHeld(cv, side) =>
      Goto(s, t, if s.tasks[t].owner == side then CancelLoad(cv, side) else CancelBack(cv, side, s.tasks[t].owner))
    case CancelBack(cv, side, owner) => With(Goto(s, t, CancelWait(cv, owner)), side, Include(Of(s, side)))
    case CancelLoad(cv, side) => Goto(s, t, CancelFlip(cv, side, Look(s, side)))
    case CancelFlip(cv, side, snap) => StepCancelFlip(s, t, c, cv, side, snap)
    case CancelCheck(cv) => StepCancelCheck(s, t, cv)
    case Unimplemented => s
    case Crashed => s
  }

  /** A run: any interleaving of any tasks with any choices. */
  function Run(s: State, schedule: seq<(nat, Choice)>): State
    decreases |schedule|
  {
    if schedule == [] then s
    else
      var last := |schedule| - 1;
      var p := Run(s, schedule[..last]);
      var (t, c) := schedule[last];
      if t < |p.tasks| then Step(p, t, c) else p
  }
}
