/** The fair mutex and its condition variable as their code is written, in the manner of
  RwLockCode: one object, with a word and a futex for each of the two, updated in place
  by loops over snapshots, with any steps of other tasks in between, shown to go on with
  a run of the machine in FairMutex.
 */
module FairMutexCode {
  import opened Attempts
  import opened FairMutex
  import opened FairMutexCalls
  import opened FairMutexOrder
  import opened FairMutexProof
  import opened Futex
  import opened Options
  import opened Traces

  class Monitor {
    /** The mutex: 1 if it is locked. */
    var word: nat
    var m: Futex
    /** The condition variable: 1 once it has been used with the mutex. */
    var used: nat
    var c: Futex
    /** Where every task is, and the history of FairMutex. */
    var tasks: seq<Task>
    var carrier: Option<nat>
    ghost const size: nat
    ghost var trace: seq<(nat, Choice)>

    function Abs(): State
      reads this
    {
      State(word, m, used, c, tasks, carrier)
    }

    /** The state is the outcome of a run. */
    ghost predicate Valid()
      reads this
    {
      Abs() == Run(Init(size), trace)
    }

    /** What the task has asked for so far. */
    ghost function Begun(t: nat): seq<Op>
      reads this`trace
    {
      Calls(size, trace, t)
    }

    /** The same object, later; the task has not asked for anything new. */
    twostate predicate Later(t: nat)
      reads this
    {
      Valid() && |tasks| == old(|tasks|) && Extends(old(trace), trace) && Begun(t) == old(Begun(t))
    }

    /** The same object, later; the task has asked for op and for nothing else. */
    twostate predicate Called(t: nat, op: Op)
      reads this
    {
      Valid() && |tasks| == old(|tasks|) && Extends(old(trace), trace) && Begun(t) == old(Begun(t)) + [op]
    }

    constructor (size: nat)
      ensures Valid() && this.size == size && trace == []
    {
      word, m, used, c, carrier := 0, New(1), 0, New(1), None;
      tasks := seq(size, _ => Task(Idle, Off, OfMutex, OfMutex));
      this.size, trace := size, [];
    }

    // ----- the rest of the world -----

    /** A step that was taken is added to the run. */
    ghost method Record(was: State, t: nat, choice: Choice)
      requires was == Run(Init(size), trace) && t < |was.tasks| && Abs() == Step(was, t, choice)
      modifies this`trace
      ensures Valid() && Extends(old(trace), trace)
      ensures forall i {:trigger Begun(i)} ::
                Begun(i) == old(Begun(i)) + if i == t && BetweenCalls(was.tasks[t].pc) then [choice.op] else []
    {
      hide Step, BetweenCalls;
      forall i: nat
        ensures Calls(size, trace + [(t, choice)], i)
             == Calls(size, trace, i) + if i == t && BetweenCalls(was.tasks[t].pc) then [choice.op] else []
      {
        CallsOne(size, trace, t, choice, i);
      }
      RunOne(size, trace, t, choice);
      trace := trace + [(t, choice)];
    }

    /** Any other tasks take any steps; they may wake the caller's waiter or move it to the
      mutex, but they never turn the caller elsewhere. */
    method Others(t: nat)
      requires Valid() && t < |tasks|
      modifies this
      ensures Later(t) && Touched(old(tasks[t]), tasks[t])
    {
      hide Run, Init, Calls, Extends;
      ExtendsOrder<(nat, Choice)>();
      var moves: seq<(nat, Choice)> := *;
      var i := 0;
      while i < |moves|
        invariant 0 <= i <= |moves| && Later(t) && Touched(old(tasks[t]), tasks[t])
      {
        var (u, choice) := moves[i];
        if u < |tasks| && u != t {
          StepOther(u, choice, t);
        }
        i := i + 1;
      }
    }

    method StepOther(u: nat, choice: Choice, t: nat)
      requires Valid() && t < |tasks| && u < |tasks| && u != t
      modifies this
      ensures Later(t) && Touched(old(tasks[t]), tasks[t])
    {
      hide Run, Init, Calls, Extends, Step;
      ExtendsOrder<(nat, Choice)>();
      ghost var was := Abs();
      StepOfOther(Abs(), u, choice, t);
      var s := Step(Abs(), u, choice);
      word, m, used, c, tasks, carrier := s.word, s.m, s.used, s.c, s.tasks, s.carrier;
      Record(was, u, choice);
    }

    /** No step of a run makes the code's assertions fail. */
    lemma {:induction false} Safe(t: nat, choice: Choice)
      requires Valid() && t < |tasks|
      ensures t < |Step(Abs(), t, choice).tasks| && !Step(Abs(), t, choice).tasks[t].pc.Crashed?
    {
      hide Step;
      var longer := trace + [(t, choice)];
      assert longer[..|longer| - 1] == trace;
      OwnTurn(Abs(), t, choice);
      NeverCrashes(size, longer, t);
    }

    // ----- a futex -----

    function Load(side: Side): Snap<nat>
      reads this
    {
      match side
      case OfMutex => Snap(word, Top(m))
      case OfCondvar => Snap(used, Top(c))
    }

    method Turn(t: nat, next: Pc)
      requires t < |tasks|
      modifies this`tasks
      ensures tasks == old(tasks)[t := old(tasks)[t].(pc := next)]
    {
      tasks := tasks[t := tasks[t].(pc := next)];
    }

    /** The shared guard of a futex, once no cancellation holds it exclusively. */
    method LockWaiters(t: nat, side: Side, next: Pc) returns (locked: bool)
      requires Valid() && t < |tasks| && Shares(tasks[t].pc, side, next)
      modifies this
      ensures Later(t) && (locked ==> tasks[t].pc == next)
    {
      hide Run, Init, Calls, Extends, Step, Shares;
      ExtendsOrder<(nat, Choice)>();
      ghost var pc := tasks[t].pc;
      locked := false;
      var patience: nat := *;
      while !locked && patience > 0
        invariant Later(t) && tasks[t].pc == if locked then next else pc
      {
        Others(t);
        locked := TryShare(t, side, next);
        patience := patience - 1;
      }
    }

    method TryShare(t: nat, side: Side, next: Pc) returns (ok: bool)
      requires Valid() && t < |tasks| && Shares(tasks[t].pc, side, next)
      modifies this
      ensures Later(t) && tasks[t].pc == if ok then next else old(tasks[t].pc)
    {
      hide Run, Init, Calls, Extends;
      ExtendsOrder<(nat, Choice)>();
      ok := if side.OfMutex? then !m.exclusive else !c.exclusive;
      if ok {
        ghost var was := Abs();
        if side.OfMutex? {
          m := Share(m);
        } else {
          c := Share(c);
        }
        Turn(t, next);
        Record(was, t, Choice(Proceed, false));
      }
    }

    method UnlockWaiters(t: nat, side: Side, next: Pc)
      requires Valid() && t < |tasks| && Unshares(tasks[t].pc, side, next)
      modifies this
      ensures Later(t) && tasks[t].pc == next
    {
      hide Run, Init, Calls, Extends;
      ExtendsOrder<(nat, Choice)>();
      Others(t);
      ghost var was := Abs();
      if side.OfMutex? {
        m := Unshare(m);
      } else {
        c := Unshare(c);
      }
      Turn(t, next);
      Record(was, t, Choice(Proceed, false));
    }

    /** Takes a queue borrow, which asserts that nobody else has it. */
    method LockQueue(t: nat, side: Side, next: Pc)
      requires Valid() && t < |tasks| && Borrows(tasks[t].pc, side, next)
      modifies this
      ensures Later(t) && tasks[t].pc == next
    {
      hide Run, Init, Calls, Extends;
      ExtendsOrder<(nat, Choice)>();
      Others(t);
      Safe(t, Choice(Proceed, false));
      assert if side.OfMutex? then !m.borrowed else !c.borrowed;
      ghost var was := Abs();
      if side.OfMutex? {
        m := TakeBorrow(m);
      } else {
        c := TakeBorrow(c);
      }
      Turn(t, next);
      Record(was, t, Choice(Proceed, false));
    }

    method UnlockQueue(t: nat, side: Side, next: Pc)
      requires Valid() && t < |tasks|
      requires || (tasks[t].pc.HandDrop? && side == OfMutex && next == HandWake(tasks[t].pc.cv, tasks[t].pc.w))
               || (tasks[t].pc.NotifyDrop? && side == OfCondvar && next == NotifyMutex(tasks[t].pc.list))
      modifies this
      ensures Later(t) && tasks[t].pc == next
    {
      hide Run, Init, Calls, Extends;
      ExtendsOrder<(nat, Choice)>();
      Others(t);
      ghost var was := Abs();
      if side.OfMutex? {
        m := DropBorrow(m);
      } else {
        c := DropBorrow(c);
      }
      Turn(t, next);
      Record(was, t, Choice(Proceed, false));
    }

    // ----- lock() -----

    /** Returns with the mutex, if it is let to finish. */
    method Lock(t: nat) returns (held: bool)
      requires Valid() && t < |tasks| && tasks[t].pc == Idle
      modifies this
      ensures Called(t, StartLock) && (held ==> tasks[t].pc == Locked && carrier == Some(t))
    {
      hide Run, Init, Calls, Extends, Step;
      ExtendsOrder<(nat, Choice)>();
      var snap := BeginLock(t);
      var parked := false;
      held := false;
      var patience: nat := *;
      while !held && !parked && patience > 0
        invariant Called(t, StartLock) && !(held && parked)
        invariant tasks[t].pc == if held then Locked else if parked then Parked(false) else LockTry(snap)
      {
        Others(t);
        held, parked, snap := AttemptLock(t, snap);
        patience := patience - 1;
      }
      if parked {
        held := Await(t, false);
      }
      if held {
        LockedOwns(t);
      }
    }

    method BeginLock(t: nat) returns (snap: Snap<nat>)
      requires Valid() && t < |tasks| && tasks[t].pc == Idle
      modifies this
      ensures Called(t, StartLock) && tasks[t].pc == LockTry(snap)
    {
      hide Run, Init, Calls, Extends;
      ghost var was := Abs();
      snap := Load(OfMutex);
      Turn(t, LockTry(snap));
      Record(was, t, Choice(StartLock, false));
    }

    /** One round of the loop. */
    method AttemptLock(t: nat, snap: Snap<nat>) returns (held: bool, parked: bool, seen: Snap<nat>)
      requires Valid() && t < |tasks| && tasks[t].pc == LockTry(snap)
      modifies this
      ensures Later(t) && !(held && parked)
      ensures tasks[t].pc == if held then Locked else if parked then Parked(false) else LockTry(seen)
    {
      hide Run, Init, Calls, Extends;
      var spurious: bool := *;
      ghost var was := Abs();
      held, parked := false, false;
      if snap.word == 0 {
        held, seen, word := CmpxchgWeak(Load(OfMutex), snap, 1, spurious);
        Turn(t, if held then Locked else LockTry(seen));
        if held {
          carrier := Some(t);
        }
      } else {
        parked, seen, word, m := CmpxchgWaitWeak(Load(OfMutex), m, Waiter(t, 0), snap, 1, spurious);
        if parked {
          tasks := tasks[t := Task(Parked(false), Waiting, OfMutex, OfMutex)];
        } else {
          Turn(t, LockTry(seen));
        }
      }
      Record(was, t, Choice(Proceed, spurious));
    }

    /** A parked task polls until its waiter has been woken. */
    method Await(t: nat, cv: bool) returns (held: bool)
      requires Valid() && t < |tasks| && tasks[t].pc == Parked(cv)
      modifies this
      ensures Later(t) && (held ==> tasks[t].pc == Locked)
    {
      hide Run, Init, Calls, Extends;
      ExtendsOrder<(nat, Choice)>();
      var patience: nat := *;
      while patience > 0 && tasks[t].slot != Done
        invariant Later(t) && tasks[t].pc == Parked(cv)
      {
        Others(t);
        patience := patience - 1;
      }
      held := tasks[t].slot == Done;
      if held {
        ghost var was := Abs();
        tasks := tasks[t := tasks[t].(pc := Locked, slot := Off)];
        Record(was, t, Choice(Proceed, false));
      }
    }

    /** Whoever has come to hold a guard owns the mutex. */
    lemma {:induction false} LockedOwns(t: nat)
      requires Valid() && t < |tasks| && tasks[t].pc == Locked
      ensures carrier == Some(t)
    {
      hide Run, Init, Calls, Inv;
      RunKeeps(size, trace);
      TokenWord(Abs(), t);
    }

    // ----- unlock() -----

    /** Gives the mutex to the first waiter, or frees it. */
    method Unlock(t: nat) returns (done: bool)
      requires Valid() && t < |tasks| && tasks[t].pc == Locked
      modifies this
      ensures Called(t, Proceed) && (done ==> tasks[t].pc == Idle)
    {
      hide Run, Init, Calls, Extends, Step;
      ExtendsOrder<(nat, Choice)>();
      BeginUnlock(t);
      done := Release(t, false);
    }

    method BeginUnlock(t: nat)
      requires Valid() && t < |tasks| && tasks[t].pc == Locked
      modifies this
      ensures Called(t, Proceed) && tasks[t].pc == UnlockShare(false)
    {
      hide Run, Init, Calls, Extends;
      ghost var was := Abs();
      Turn(t, UnlockShare(false));
      Record(was, t, Choice(Proceed, false));
    }

    /** The body of unlock(), which wait() calls as well. */
    method Release(t: nat, cv: bool) returns (done: bool)
      requires Valid() && t < |tasks| && tasks[t].pc == UnlockShare(cv)
      modifies this
      ensures Later(t) && (done ==> tasks[t].pc == AfterUnlock(cv))
    {
      hide Run, Init, Calls, Extends, Step, Releasing;
      ExtendsOrder<(nat, Choice)>();
      done := LockWaiters(t, OfMutex, UnlockBorrow(cv));
      if !done {
        return;
      }
      LockQueue(t, OfMutex, UnlockPop(cv));
      Others(t);
      var popped: bool, w: Waiter, snap: Snap<nat>;
      popped, w, snap := PopOrLook(t, cv);
      if popped {
        WakeWaiter(t, cv, w);
        return;
      }
      done := false;
      var patience: nat := *;
      while !done && patience > 0
        invariant Later(t) && tasks[t].pc == if done then AfterUnlock(cv) else UnlockDecide(cv, snap)
      {
        Others(t);
        done, snap := Decide(t, cv, snap);
        patience := patience - 1;
      }
    }

    /** The waiter at the front of the queue, or else a first look at the word. */
    method PopOrLook(t: nat, cv: bool) returns (popped: bool, w: Waiter, snap: Snap<nat>)
      requires Valid() && t < |tasks| && tasks[t].pc == UnlockPop(cv)
      modifies this
      ensures Later(t) && tasks[t].pc == if popped then HandDrop(cv, w) else UnlockDecide(cv, snap)
    {
      hide Run, Init, Calls, Extends;
      ghost var was := Abs();
      w, snap := Waiter(t, 0), Load(OfMutex);
      popped := Front(m) != [];
      if popped {
        w := m.queues[0][0];
        m := Pop(m, 0, 1);
        Turn(t, HandDrop(cv, w));
      } else {
        Turn(t, UnlockDecide(cv, snap));
      }
      Record(was, t, Choice(Proceed, false));
    }

    /** One round of the loop, and what follows a success. */
    method Decide(t: nat, cv: bool, snap: Snap<nat>) returns (done: bool, seen: Snap<nat>)
      requires Valid() && t < |tasks| && tasks[t].pc == UnlockDecide(cv, snap)
      modifies this
      ensures Later(t) && tasks[t].pc == if done then AfterUnlock(cv) else UnlockDecide(cv, seen)
    {
      hide Run, Init, Calls, Extends, Step;
      ExtendsOrder<(nat, Choice)>();
      if snap.inbox.Some? {
        var w: Waiter;
        done, seen, w := TakeInbox(t, cv, snap);
        if done {
          WakeWaiter(t, cv, w);
        }
      } else {
        ReturnQueue(t, cv, snap);
        Others(t);
        done, seen := FreeWord(t, cv, snap);
        if done {
          UnlockWaiters(t, OfMutex, AfterUnlock(cv));
        } else {
          LockQueue(t, OfMutex, UnlockDecide(cv, seen));
        }
      }
    }

    /** Takes the inbox, in which there is a waiter to pop. */
    method TakeInbox(t: nat, cv: bool, snap: Snap<nat>) returns (ok: bool, seen: Snap<nat>, w: Waiter)
      requires Valid() && t < |tasks| && tasks[t].pc == UnlockDecide(cv, snap) && snap.inbox.Some?
      modifies this
      ensures Later(t) && tasks[t].pc == if ok then HandDrop(cv, w) else UnlockDecide(cv, seen)
    {
      hide Run, Init, Calls, Extends, Enqueue;
      var spurious: bool := *;
      Safe(t, Choice(Proceed, spurious));
      ghost var was := Abs();
      w := Waiter(t, 0);
      ok, seen, word, m := CmpxchgEnqueueWeak(Load(OfMutex), m, snap, 1, spurious);
      if ok {
        assert Front(m) != [];
        w := m.queues[0][0];
        m := Pop(m, 0, 1);
        Turn(t, HandDrop(cv, w));
      } else {
        Turn(t, UnlockDecide(cv, seen));
      }
      Record(was, t, Choice(Proceed, spurious));
    }

    method ReturnQueue(t: nat, cv: bool, snap: Snap<nat>)
      requires Valid() && t < |tasks| && tasks[t].pc == UnlockDecide(cv, snap) && snap.inbox.None?
      modifies this
      ensures Later(t) && tasks[t].pc == UnlockFree(cv, snap)
    {
      hide Run, Init, Calls, Extends;
      ghost var was := Abs();
      m := DropBorrow(m);
      Turn(t, UnlockFree(cv, snap));
      Record(was, t, Choice(Proceed, false));
    }

    method FreeWord(t: nat, cv: bool, snap: Snap<nat>) returns (ok: bool, seen: Snap<nat>)
      requires Valid() && t < |tasks| && tasks[t].pc == UnlockFree(cv, snap)
      modifies this
      ensures Later(t) && tasks[t].pc == if ok then UnlockLeave(cv) else UnlockRelock(cv, seen)
    {
      hide Run, Init, Calls, Extends;
      var spurious: bool := *;
      ghost var was := Abs();
      ok, seen, word := CmpxchgWeak(Load(OfMutex), snap, 0, spurious);
      if ok {
        carrier := None;
      }
      Turn(t, if ok then UnlockLeave(cv) else UnlockRelock(cv, seen));
      Record(was, t, Choice(Proceed, spurious));
    }

    /** Drops the borrow, wakes the popped waiter, drops the guard. */
    method WakeWaiter(t: nat, cv: bool, w: Waiter)
      requires Valid() && t < |tasks| && tasks[t].pc == HandDrop(cv, w)
      modifies this
      ensures Later(t) && tasks[t].pc == AfterUnlock(cv)
    {
      hide Run, Init, Calls, Extends, Step;
      ExtendsOrder<(nat, Choice)>();
      UnlockQueue(t, OfMutex, HandWake(cv, w));
      SwapSlot(t, cv, w);
      UnlockWaiters(t, OfMutex, AfterUnlock(cv));
    }

    /** Swaps the waiter's slot, which asserts that it is waiting. */
    method SwapSlot(t: nat, cv: bool, w: Waiter)
      requires Valid() && t < |tasks| && tasks[t].pc == HandWake(cv, w)
      modifies this
      ensures Later(t) && tasks[t].pc == UnlockLeave(cv)
    {
      hide Run, Init, Calls, Extends;
      ExtendsOrder<(nat, Choice)>();
      Others(t);
      Safe(t, Choice(Proceed, false));
      assert w.task < |tasks| && w.task != t && tasks[w.task].slot.Waiting?;
      ghost var was := Abs();
      carrier := Some(w.task);
      Turn(t, UnlockLeave(cv));
      tasks := tasks[w.task := tasks[w.task].(slot := Done)];
      Record(was, t, Choice(Proceed, false));
    }

    // ----- wait() -----

    /** Releases the mutex once the waiter is in the inbox, and returns with the mutex
      again, if it is let to finish. */
    method Wait(t: nat) returns (held: bool)
      requires Valid() && t < |tasks| && tasks[t].pc == Locked
      modifies this
      ensures Called(t, StartWait) && (held ==> tasks[t].pc == Locked && carrier == Some(t))
    {
      hide Run, Init, Calls, Extends, Step;
      ExtendsOrder<(nat, Choice)>();
      var snap := BeginWait(t);
      var parked := false;
      var patience: nat := *;
      while !parked && patience > 0
        invariant Called(t, StartWait) && tasks[t].pc == if parked then UnlockShare(true) else WaitTry(snap)
      {
        Others(t);
        parked, snap := AttemptWait(t, snap);
        patience := patience - 1;
      }
      if !parked {
        return false;
      }
      var released := Release(t, true);
      if !released {
        return false;
      }
      held := Await(t, true);
      if held {
        LockedOwns(t);
      }
    }

    method BeginWait(t: nat) returns (snap: Snap<nat>)
      requires Valid() && t < |tasks| && tasks[t].pc == Locked
      modifies this
      ensures Called(t, StartWait) && tasks[t].pc == WaitTry(snap)
    {
      hide Run, Init, Calls, Extends;
      ghost var was := Abs();
      snap := Load(OfCondvar);
      Turn(t, WaitTry(snap));
      Record(was, t, Choice(StartWait, false));
    }

    /** One round of the loop; the word always says unused or this mutex. */
    method AttemptWait(t: nat, snap: Snap<nat>) returns (parked: bool, seen: Snap<nat>)
      requires Valid() && t < |tasks| && tasks[t].pc == WaitTry(snap)
      modifies this
      ensures Later(t) && tasks[t].pc == if parked then UnlockShare(true) else WaitTry(seen)
    {
      hide Run, Init, Calls, Extends;
      var spurious: bool := *;
      Safe(t, Choice(Proceed, spurious));
      assert snap.word == 0 || snap.word == 1;
      ghost var was := Abs();
      parked, seen, used, c := CmpxchgWaitWeak(Load(OfCondvar), c, Waiter(t, 0), snap, 1, spurious);
      if parked {
        tasks := tasks[t := Task(UnlockShare(true), Waiting, OfCondvar, OfCondvar)];
      } else {
        Turn(t, WaitTry(seen));
      }
      Record(was, t, Choice(Proceed, spurious));
    }

    // ----- notify() -----

    /** Moves the first count waiters of the condition variable, or all of them, to the
      mutex; the caller keeps the mutex. */
    method Notify(t: nat, count: nat) returns (done: bool)
      requires Valid() && t < |tasks| && tasks[t].pc == Locked
      modifies this
      ensures Called(t, StartNotify(count))
      ensures done ==> tasks[t].pc == Locked && carrier == Some(t) && Moved(size, trace, |old(trace)|, t, count)
    {
      hide Run, Init, Calls, Step, Moved;
      if used == 0 {
        SkipNotify(t, count);
        done := true;
      } else {
        done := MoveWaiters(t, count);
      }
      if done {
        LockedOwns(t);
        MovesFirst(old(trace), t, count);
      }
    }

    lemma {:induction false} MovesFirst(before: seq<(nat, Choice)>, t: nat, count: nat)
      requires Valid() && Extends(before, trace) && t < |tasks| && tasks[t].pc == Locked
      requires var s := Run(Init(size), before); t < |s.tasks| && s.tasks[t].pc == Locked
      requires Calls(size, trace, t) == Calls(size, before, t) + [StartNotify(count)]
      ensures Moved(size, trace, |before|, t, count)
    {
      hide Run, Init, Calls, Moved;
      assert before + trace[|before|..] == trace;
      NotifyMovesFirst(size, before, trace[|before|..], t, count);
    }

    /** Nobody has ever waited. */
    method SkipNotify(t: nat, count: nat)
      requires Valid() && t < |tasks| && tasks[t].pc == Locked && used == 0
      modifies this
      ensures Called(t, StartNotify(count)) && tasks[t].pc == Locked
    {
      hide Run, Init, Calls, Extends;
      Record(Abs(), t, Choice(StartNotify(count), false));
    }

    method MoveWaiters(t: nat, count: nat) returns (done: bool)
      requires Valid() && t < |tasks| && tasks[t].pc == Locked && used != 0
      modifies this
      ensures Called(t, StartNotify(count)) && (done ==> tasks[t].pc == Locked)
    {
      hide Run, Init, Calls, Extends, Step;
      ExtendsOrder<(nat, Choice)>();
      var snap := BeginNotify(t, count);
      done := LockWaiters(t, OfCondvar, NotifyBorrow(snap, count));
      if !done {
        return;
      }
      LockQueue(t, OfCondvar, NotifyTake(snap, count));
      var list: seq<Waiter> := [];
      done := false;
      var patience: nat := *;
      while !done && patience > 0
        invariant Called(t, StartNotify(count))
        invariant tasks[t].pc == if done then NotifyDrop(list) else NotifyTake(snap, count)
      {
        Others(t);
        done, snap, list := AttemptTake(t, snap, count);
        patience := patience - 1;
      }
      if done {
        done := PassOn(t, list);
      }
    }

    /** Gives back the borrow, moves the list, gives back the guards. */
    method PassOn(t: nat, list: seq<Waiter>) returns (done: bool)
      requires Valid() && t < |tasks| && tasks[t].pc == NotifyDrop(list)
      modifies this
      ensures Later(t) && (done ==> tasks[t].pc == Locked && carrier == Some(t))
    {
      hide Run, Init, Calls, Extends, Step;
      ExtendsOrder<(nat, Choice)>();
      UnlockQueue(t, OfCondvar, NotifyMutex(list));
      done := LockWaiters(t, OfMutex, if list == [] then NotifyLeaveMutex else NotifyStore(list, 0));
      if done && list != [] {
        done := Requeue(t, list);
      }
      if done {
        UnlockWaiters(t, OfMutex, NotifyLeave);
        UnlockWaiters(t, OfCondvar, Locked);
        LockedOwns(t);
      }
    }

    method BeginNotify(t: nat, count: nat) returns (snap: Snap<nat>)
      requires Valid() && t < |tasks| && tasks[t].pc == Locked && used != 0
      modifies this
      ensures Called(t, StartNotify(count)) && tasks[t].pc == NotifyShare(snap, count)
    {
      hide Run, Init, Calls, Extends;
      ghost var was := Abs();
      snap := Load(OfCondvar);
      Turn(t, NotifyShare(snap, count));
      Record(was, t, Choice(StartNotify(count), false));
    }

    method AttemptTake(t: nat, snap: Snap<nat>, count: nat) returns (ok: bool, seen: Snap<nat>, list: seq<Waiter>)
      requires Valid() && t < |tasks| && tasks[t].pc == NotifyTake(snap, count)
      modifies this
      ensures Later(t) && tasks[t].pc == if ok then NotifyDrop(list) else NotifyTake(seen, count)
    {
      hide Run, Init, Calls, Extends, Enqueue;
      var spurious: bool := *;
      OneQueue();
      ghost var was := Abs();
      list := [];
      ok, seen, used, c := CmpxchgEnqueueWeak(Load(OfCondvar), c, snap, 1, spurious);
      if ok {
        var n := Min(count, |c.queues[0]|);
        list := c.queues[0][..n];
        c := Pop(c, 0, n);
      }
      Turn(t, if ok then NotifyDrop(list) else NotifyTake(seen, count));
      Record(was, t, Choice(Proceed, spurious));
    }

    lemma {:induction false} OneQueue()
      requires Valid()
      ensures |c.queues| == 1 && |Enqueue(c).queues| == 1
    {
      hide Run, Init, Calls, Inv, Enqueue;
      RunKeeps(size, trace);
      RoomLine(Abs());
      OneRoom(Abs());
    }

    /** Tells every waiter of the list its new owner, then makes the list the top of the
      mutex's inbox. */
    method Requeue(t: nat, list: seq<Waiter>) returns (done: bool)
      requires Valid() && t < |tasks| && tasks[t].pc == NotifyStore(list, 0)
      modifies this
      ensures Later(t) && (done ==> tasks[t].pc == NotifyLeaveMutex)
    {
      hide Run, Init, Calls, Extends, Step;
      ExtendsOrder<(nat, Choice)>();
      var i := 0;
      while i < |list|
        invariant 0 <= i <= |list| && Later(t) && tasks[t].pc == NotifyStore(list, i)
      {
        Others(t);
        StoreOwner(t, list, i);
        i := i + 1;
      }
      Others(t);
      var snap := LookAtMutex(t, list);
      done := false;
      var patience: nat := *;
      while !done && patience > 0
        invariant Later(t) && tasks[t].pc == if done then NotifyLeaveMutex else NotifyPush(list, snap)
      {
        Others(t);
        done, snap := AttemptPush(t, list, snap);
        patience := patience - 1;
      }
    }

    method StoreOwner(t: nat, list: seq<Waiter>, i: nat)
      requires Valid() && t < |tasks| && i < |list| && tasks[t].pc == NotifyStore(list, i)
      modifies this
      ensures Later(t) && tasks[t].pc == NotifyStore(list, i + 1)
    {
      hide Run, Init, Calls, Extends;
      Safe(t, Choice(Proceed, false));
      var k := list[i].task;
      assert k < |tasks|;
      ghost var was := Abs();
      tasks := tasks[k := tasks[k].(owner := OfMutex)];
      Turn(t, NotifyStore(list, i + 1));
      Record(was, t, Choice(Proceed, false));
    }

    method LookAtMutex(t: nat, list: seq<Waiter>) returns (snap: Snap<nat>)
      requires Valid() && t < |tasks| && tasks[t].pc == NotifyStore(list, |list|)
      modifies this
      ensures Later(t) && tasks[t].pc == NotifyPush(list, snap)
    {
      hide Run, Init, Calls, Extends;
      ghost var was := Abs();
      snap := Load(OfMutex);
      Turn(t, NotifyPush(list, snap));
      Record(was, t, Choice(Proceed, false));
    }

    method AttemptPush(t: nat, list: seq<Waiter>, snap: Snap<nat>) returns (ok: bool, seen: Snap<nat>)
      requires Valid() && t < |tasks| && tasks[t].pc == NotifyPush(list, snap)
      modifies this
      ensures Later(t) && tasks[t].pc == if ok then NotifyLeaveMutex else NotifyPush(list, seen)
    {
      hide Run, Init, Calls, Extends, Rehome;
      var spurious: bool := *;
      ghost var was := Abs();
      ok := !spurious && snap == Load(OfMutex);
      seen := if ok then snap else Load(OfMutex);
      Turn(t, if ok then NotifyLeaveMutex else NotifyPush(list, seen));
      if ok {
        RehomeTouches(tasks, list, t);
        m := m.(inbox := m.inbox + list);
        tasks := Rehome(tasks, list);
      }
      Record(was, t, Choice(Proceed, spurious));
    }

    // ----- dropping a wait -----

    /** Gives up a wait of lock() or wait() that has been parked: under the exclusive guard
      of the futex the waiter belongs to, which may change as long as the guard is not
      held, the waiter is unlinked; if it was woken in the meantime the mutex is its own
      and is unlocked. A sleeping wait on the condition variable has no code for this. */
    method DropWait(t: nat, cv: bool) returns (done: bool)
      requires Valid() && t < |tasks| && tasks[t].pc == Parked(cv)
      modifies this
      ensures Later(t) && (done ==> tasks[t].pc == Idle || (cv && tasks[t].pc == Unimplemented))
    {
      hide Run, Init, Calls, Extends, Step;
      ExtendsOrder<(nat, Choice)>();
      var side := BeginDrop(t, cv);
      var held := false;
      var patience: nat := *;
      while !held && patience > 0
        invariant Later(t) && tasks[t].pc == if held then CancelLoad(cv, side) else CancelWait(cv, side)
      {
        Others(t);
        held, side := TryGuard(t, cv, side);
        patience := patience - 1;
      }
      if !held {
        return false;
      }
      done := FlipAndCancel(t, cv, side);
      if done {
        Others(t);
        var woken := LookAtSlot(t, cv);
        if woken {
          done := Release(t, false);
        }
      }
    }

    method BeginDrop(t: nat, cv: bool) returns (side: Side)
      requires Valid() && t < |tasks| && tasks[t].pc == Parked(cv)
      modifies this
      ensures Later(t) && tasks[t].pc == CancelWait(cv, side)
    {
      hide Run, Init, Calls, Extends;
      ghost var was := Abs();
      side := tasks[t].owner;
      Turn(t, CancelWait(cv, side));
      Record(was, t, Choice(Cancel, false));
    }

    /** One round: take the exclusive guard and look again at who owns the waiter; if it has
      been moved, let go and go on with the new owner. */
    method TryGuard(t: nat, cv: bool, side: Side) returns (held: bool, owner: Side)
      requires Valid() && t < |tasks| && tasks[t].pc == CancelWait(cv, side)
      modifies this
      ensures Later(t) && tasks[t].pc == if held then CancelLoad(cv, owner) else CancelWait(cv, owner)
    {
      hide Run, Init, Calls, Extends, Step;
      ExtendsOrder<(nat, Choice)>();
      held := TryExclude(t, cv, side);
      owner := side;
      if held {
        Others(t);
        held, owner := CheckOwner(t, cv, side);
        if !held {
          Others(t);
          LetGo(t, cv, side, owner);
        }
      }
    }

    method TryExclude(t: nat, cv: bool, side: Side) returns (ok: bool)
      requires Valid() && t < |tasks| && tasks[t].pc == CancelWait(cv, side)
      modifies this
      ensures Later(t) && tasks[t].pc == if ok then CancelHeld(cv, side) else CancelWait(cv, side)
    {
      hide Run, Init, Calls, Extends;
      ExtendsOrder<(nat, Choice)>();
      ok := if side.OfMutex? then !m.exclusive && m.guards == 0 else !c.exclusive && c.guards == 0;
      if ok {
        ghost var was := Abs();
        if side.OfMutex? {
          m := Exclude(m);
        } else {
          c := Exclude(c);
        }
        Turn(t, CancelHeld(cv, side));
        Record(was, t, Choice(Proceed, false));
      }
    }

    method CheckOwner(t: nat, cv: bool, side: Side) returns (same: bool, owner: Side)
      requires Valid() && t < |tasks| && tasks[t].pc == CancelHeld(cv, side)
      modifies this
      ensures Later(t) && (same ==> owner == side)
      ensures tasks[t].pc == if same then CancelLoad(cv, side) else CancelBack(cv, side, owner)
    {
      hide Run, Init, Calls, Extends;
      ghost var was := Abs();
      owner := tasks[t].owner;
      same := owner == side;
      Turn(t, if same then CancelLoad(cv, side) else CancelBack(cv, side, owner));
      Record(was, t, Choice(Proceed, false));
    }

    method LetGo(t: nat, cv: bool, side: Side, owner: Side)
      requires Valid() && t < |tasks| && tasks[t].pc == CancelBack(cv, side, owner)
      modifies this
      ensures Later(t) && tasks[t].pc == CancelWait(cv, owner)
    {
      hide Run, Init, Calls, Extends;
      ghost var was := Abs();
      if side.OfMutex? {
        m := Include(m);
      } else {
        c := Include(c);
      }
      Turn(t, CancelWait(cv, owner));
      Record(was, t, Choice(Proceed, false));
    }

    /** Brings the inbox into the queue, into which others may push all the while, unlinks
      the waiter and lets go of the guard. */
    method FlipAndCancel(t: nat, cv: bool, side: Side) returns (done: bool)
      requires Valid() && t < |tasks| && tasks[t].pc == CancelLoad(cv, side)
      modifies this
      ensures Later(t) && (done ==> tasks[t].pc == CancelCheck(cv))
    {
      hide Run, Init, Calls, Extends, Step;
      ExtendsOrder<(nat, Choice)>();
      Others(t);
      var snap := LoadForFlip(t, cv, side);
      done := false;
      var patience: nat := *;
      while !done && patience > 0
        invariant Later(t) && tasks[t].pc == if done then CancelCheck(cv) else CancelFlip(cv, side, snap)
      {
        Others(t);
        done, snap := AttemptFlip(t, cv, side, snap);
        patience := patience - 1;
      }
    }

    method LoadForFlip(t: nat, cv: bool, side: Side) returns (snap: Snap<nat>)
      requires Valid() && t < |tasks| && tasks[t].pc == CancelLoad(cv, side)
      modifies this
      ensures Later(t) && tasks[t].pc == CancelFlip(cv, side, snap)
    {
      hide Run, Init, Calls, Extends;
      ghost var was := Abs();
      snap := Load(side);
      Turn(t, CancelFlip(cv, side, snap));
      Record(was, t, Choice(Proceed, false));
    }

    method AttemptFlip(t: nat, cv: bool, side: Side, snap: Snap<nat>) returns (done: bool, seen: Snap<nat>)
      requires Valid() && t < |tasks| && tasks[t].pc == CancelFlip(cv, side, snap)
      modifies this
      ensures Later(t) && tasks[t].pc == if done then CancelCheck(cv) else CancelFlip(cv, side, seen)
    {
      hide Run, Init, Calls, Extends, Enqueue, Unlink;
      var spurious: bool := *;
      ghost var was := Abs();
      var f := if side.OfMutex? then m else c;
      done, seen := true, snap;
      if snap.inbox.Some? {
        done := !spurious && snap == Load(side);
        seen := if done then snap else Load(side);
        f := Enqueue(f);
      }
      if done {
        f := Include(Unlink(f, Waiter(t, 0)));
        if side.OfMutex? {
          m := f;
        } else {
          c := f;
        }
      }
      Turn(t, if done then CancelCheck(cv) else CancelFlip(cv, side, seen));
      Record(was, t, Choice(Proceed, spurious));
    }

    /** The slot says whether the waiter was woken before it was unlinked. */
    method LookAtSlot(t: nat, cv: bool) returns (woken: bool)
      requires Valid() && t < |tasks| && tasks[t].pc == CancelCheck(cv)
      modifies this
      ensures Later(t)
      ensures tasks[t].pc == if woken then UnlockShare(false) else if cv then Unimplemented else Idle
    {
      hide Run, Init, Calls, Extends;
      Safe(t, Choice(Proceed, false));
      assert tasks[t].slot != Off;
      ghost var was := Abs();
      woken := tasks[t].slot == Done;
      tasks := tasks[t := tasks[t].(pc := if woken then UnlockShare(false) else if cv then Unimplemented else Idle,
                                    slot := Off)];
      Record(was, t, Choice(Proceed, false));
    }
  }
}
