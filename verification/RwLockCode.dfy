/** The reader-writer lock as its code is written: one object whose word and futex are
  updated in place by loops over a snapshot.

  Between two accesses to shared memory any other tasks may take any steps; Others does
  that. The object records what has happened as a run of the machine in RwLock, so its
  invariant holds at every point, and with it the code's own assertions, which stand
  here as assertions. The loops retry as often as they are let to; an operation that is
  not let to finish reports so.
 */
module RwLockCode {
  import opened Attempts
  import opened Futex
  import opened Options
  import opened RwLock
  import opened RwLockOrder
  import opened RwLockProof
  import opened Traces

  type Trace = seq<(nat, Choice)>

  class Lock {
    var word: Word
    var futex: Futex
    /** Where every task is, and the histories of RwLock. */
    var pcs: seq<Pc>
    var arrived: seq<Waiter>
    var granted: seq<Waiter>
    ghost const tasks: nat
    ghost var trace: Trace

    function Abs(): State
      reads this
    {
      State(word, futex, pcs, arrived, granted)
    }

    /** The state is the outcome of a run. */
    ghost predicate Valid()
      reads this
    {
      Abs() == Run(Init(tasks), trace)
    }

    /** What the task has asked for so far. */
    ghost function Begun(t: nat): seq<Op>
      reads this`trace
    {
      Calls(tasks, trace, t)
    }

    /** The same object, later; the task has not asked for anything new. */
    twostate predicate Later(t: nat)
      reads this
    {
      Valid() && |pcs| == old(|pcs|) && Extends(old(trace), trace) && Begun(t) == old(Begun(t))
    }

    /** The same object, later; the task has asked for op and for nothing else. */
    twostate predicate Called(t: nat, op: Op)
      reads this
    {
      Valid() && |pcs| == old(|pcs|) && Extends(old(trace), trace) && Begun(t) == old(Begun(t)) + [op]
    }

    constructor (tasks: nat)
      ensures Valid() && this.tasks == tasks && trace == []
    {
      word, futex, pcs, arrived, granted := RwLock.Word(0, 0), New(2), seq(tasks, _ => Idle), [], [];
      this.tasks, trace := tasks, [];
    }

    // ----- the rest of the world -----

    /** A step that was taken is added to the run. */
    ghost method Record(was: State, t: nat, c: Choice)
      requires was == Run(Init(tasks), trace) && t < |was.pcs| && Abs() == Step(was, t, c)
      modifies this`trace
      ensures Valid() && Extends(old(trace), trace)
      ensures forall i {:trigger Begun(i)} ::
                Begun(i) == old(Begun(i)) + if i == t && BetweenCalls(was.pcs[t]) then [c.op] else []
    {
      hide Step, BetweenCalls;
      forall i: nat
        ensures Calls(tasks, trace + [(t, c)], i)
             == Calls(tasks, trace, i) + if i == t && BetweenCalls(was.pcs[t]) then [c.op] else []
      {
        CallsOne(tasks, trace, t, c, i);
      }
      trace := trace + [(t, c)];
      assert trace[..|trace| - 1] == old(trace);
    }

    /** Any other tasks take any steps; at most they wake the caller. */
    method Others(t: nat)
      requires Valid() && t < |pcs|
      modifies this
      ensures Later(t) && (pcs[t] == old(pcs[t]) || Woken(old(pcs[t])) == Some(pcs[t]))
    {
      hide Run, Init, Calls, Extends, Step;
      ExtendsOrder<(nat, Choice)>();
      var moves: seq<(nat, Choice)> := *;
      var i := 0;
      while i < |moves|
        invariant 0 <= i <= |moves| && Later(t)
        invariant pcs[t] == old(pcs[t]) || Woken(old(pcs[t])) == Some(pcs[t])
      {
        var (u, c) := moves[i];
        if u < |pcs| && u != t {
          StepOther(u, c, t);
        }
        i := i + 1;
      }
    }

    method StepOther(u: nat, c: Choice, t: nat)
      requires Valid() && t < |pcs| && u < |pcs| && u != t
      modifies this
      ensures Later(t) && (pcs[t] == old(pcs[t]) || Woken(old(pcs[t])) == Some(pcs[t]))
    {
      hide Run, Init, Calls, Extends, Step, Woken;
      ghost var was := Abs();
      StepOfOther(Abs(), u, c, t);
      var s := Step(Abs(), u, c);
      word, futex, pcs, arrived, granted := s.word, s.futex, s.pcs, s.arrived, s.granted;
      Record(was, u, c);
    }

    /** The same for a task that is not waiting: nobody moves it. */
    method LetOthers(t: nat)
      requires Valid() && t < |pcs| && Woken(pcs[t]).None?
      modifies this
      ensures Later(t) && pcs[t] == old(pcs[t])
    {
      hide Run, Init, Calls, Extends;
      ExtendsOrder<(nat, Choice)>();
      Others(t);
    }

    // ----- the futex -----

    function Load(): Snap<Word>
      reads this
    {
      Snap(word, Top(futex))
    }


    /** The futex's shared guard, once no cancellation holds it exclusively. */
    method LockWaiters(t: nat, next: Pc) returns (locked: bool)
      requires Valid() && t < |pcs|
      requires (pcs[t].LastReader? && next == LastGuarded(pcs[t].snap)) || (pcs[t].WriteRelease? &&
          next == WriteGuarded)
      modifies this
      ensures Later(t) && (locked ==> pcs[t] == next)
    {
      hide Run, Init, Calls, Extends, Step;
      ExtendsOrder<(nat, Choice)>();
      ghost var pc := pcs[t];
      locked := false;
      var patience: nat := *;
      while !locked && patience > 0
        invariant Later(t) && pcs[t] == if locked then next else pc
      {
        LetOthers(t);
        locked := TryShare(t, next);
        patience := patience - 1;
      }
    }

    method TryShare(t: nat, next: Pc) returns (ok: bool)
      requires Valid() && t < |pcs|
      requires (pcs[t].LastReader? && next == LastGuarded(pcs[t].snap)) || (pcs[t].WriteRelease? &&
          next == WriteGuarded)
      modifies this
      ensures Later(t) && pcs[t] == if ok then next else old(pcs[t])
    {
      hide Run, Init, Calls, Extends;
      ExtendsOrder<(nat, Choice)>();
      ok := !futex.exclusive;
      if ok {
        ghost var was := Abs();
        futex := Share(futex);
        pcs := pcs[t := next];
        Record(was, t, Choice(Proceed, false));
      }
    }

    // ----- read() -----

    /** Returns with a read guard, if it is let to finish, and not before every writer that
      was waiting when it began has been granted the lock. */
    method Read(t: nat) returns (held: bool)
      requires Valid() && t < |pcs| && pcs[t] == Idle
      modifies this
      ensures Called(t, StartRead) && (held ==> pcs[t] == Reading)
      ensures held ==> forall w :: 0 <= w < old(|pcs|) && old(pcs[w]).WriteParked? ==>
                         Granted(tasks, old(trace), trace[|old(trace)|..], w)
    {
      hide Run, Init, Calls, Step, Granted;
      held := ReadLock(t);
      if held {
        forall w | 0 <= w < old(|pcs|) && old(pcs[w]).WriteParked?
          ensures Granted(tasks, old(trace), trace[|old(trace)|..], w)
        {
          AfterWriter(old(trace), t, w);
        }
      }
    }

    lemma {:induction false} AfterWriter(before: Trace, t: nat, w: nat)
      requires Valid() && Extends(before, trace) && t < |pcs| && pcs[t] == Reading
      requires var s := Run(Init(tasks), before);
               t < |s.pcs| && s.pcs[t] == Idle && w < |s.pcs| && s.pcs[w].WriteParked?
      ensures Granted(tasks, before, trace[|before|..], w)
    {
      hide Run, Init, Calls, Inv, Granted;
      RunKeeps(tasks, before);
      IdleIsOutside(Run(Init(tasks), before), t);
      WritersFirst(tasks, before, trace[|before|..], w, t);
      assert before + trace[|before|..] == trace;
    }

    method ReadLock(t: nat) returns (held: bool)
      requires Valid() && t < |pcs| && pcs[t] == Idle
      modifies this
      ensures Called(t, StartRead) && (held ==> pcs[t] == Reading)
    {
      hide Run, Init, Calls, Extends, Step;
      ExtendsOrder<(nat, Choice)>();
      var snap := BeginRead(t);
      var parked := false;
      held := false;
      var patience: nat := *;
      while !held && !parked && patience > 0
        invariant Called(t, StartRead) && !(held && parked)
        invariant pcs[t] == if held then Reading else if parked then ReadParked else ReadTry(snap)
      {
        LetOthers(t);
        held, parked, snap := AttemptRead(t, snap);
        patience := patience - 1;
      }
      if parked {
        held := AwaitRead(t);
      }
    }

    method BeginRead(t: nat) returns (snap: Snap<Word>)
      requires Valid() && t < |pcs| && pcs[t] == Idle
      modifies this
      ensures Called(t, StartRead) && pcs[t] == ReadTry(snap)
    {
      hide Run, Init, Calls, Extends;
      ghost var was := Abs();
      snap := Load();
      pcs := pcs[t := ReadTry(snap)];
      Record(was, t, Choice(StartRead, false));
    }

    /** One round of the loop of read(). */
    method AttemptRead(t: nat, snap: Snap<Word>) returns (held: bool, parked: bool, seen: Snap<Word>)
      requires Valid() && t < |pcs| && pcs[t] == ReadTry(snap)
      modifies this
      ensures Later(t) && !(held && parked)
      ensures pcs[t] == if held then Reading else if parked then ReadParked else ReadTry(seen)
    {
      hide Run, Init, Calls, Extends;
      var spurious: bool := *;
      ghost var was := Abs();
      held, parked := false, false;
      if snap.word.writers == 0 {
        held, seen, word := CmpxchgWeak(Load(), snap, RwLock.Word(snap.word.readers + 1, 0), spurious);
        pcs := pcs[t := if held then Reading else ReadTry(seen)];
      } else {
        parked, seen, word, futex := CmpxchgWaitWeak(Load(), futex, Waiter(t, READ_QUEUE), snap, snap.word, spurious);
        pcs := pcs[t := if parked then ReadParked else ReadTry(seen)];
      }
      Record(was, t, Choice(Proceed, spurious));
    }

    /** A parked reader polls until it has been woken. */
    method AwaitRead(t: nat) returns (held: bool)
      requires Valid() && t < |pcs| && pcs[t] == ReadParked
      modifies this
      ensures Later(t) && (held ==> pcs[t] == Reading)
    {
      hide Run, Init, Calls, Extends;
      ExtendsOrder<(nat, Choice)>();
      var patience: nat := *;
      while patience > 0 && pcs[t] == ReadParked
        invariant Later(t) && (pcs[t] == ReadParked || pcs[t] == ReadWoken)
      {
        Others(t);
        patience := patience - 1;
      }
      held := pcs[t] == ReadWoken;
      if held {
        ghost var was := Abs();
        pcs := pcs[t := Reading];
        Record(was, t, Choice(Proceed, false));
      }
    }

    // ----- write() -----

    /** Returns with the write guard, if it is let to finish. */
    method Write(t: nat) returns (held: bool)
      requires Valid() && t < |pcs| && pcs[t] == Idle
      modifies this
      ensures Called(t, StartWrite) && (held ==> pcs[t] == Writing)
    {
      hide Run, Init, Calls, Extends, Step;
      ExtendsOrder<(nat, Choice)>();
      var snap := BeginWrite(t);
      var parked := false;
      held := false;
      var patience: nat := *;
      while !held && !parked && patience > 0
        invariant Called(t, StartWrite) && !(held && parked)
        invariant pcs[t] == if held then Writing else if parked then WriteParked else WriteTry(snap)
      {
        LetOthers(t);
        held, parked, snap := AttemptWrite(t, snap);
        patience := patience - 1;
      }
      if parked {
        held := AwaitWrite(t);
      }
    }

    method BeginWrite(t: nat) returns (snap: Snap<Word>)
      requires Valid() && t < |pcs| && pcs[t] == Idle
      modifies this
      ensures Called(t, StartWrite) && pcs[t] == WriteTry(snap)
    {
      hide Run, Init, Calls, Extends;
      ghost var was := Abs();
      snap := Load();
      pcs := pcs[t := WriteTry(snap)];
      Record(was, t, Choice(StartWrite, false));
    }

    /** One round of the loop of write(). */
    method AttemptWrite(t: nat, snap: Snap<Word>) returns (held: bool, parked: bool, seen: Snap<Word>)
      requires Valid() && t < |pcs| && pcs[t] == WriteTry(snap)
      modifies this
      ensures Later(t) && !(held && parked)
      ensures pcs[t] == if held then Writing else if parked then WriteParked else WriteTry(seen)
    {
      hide Run, Init, Calls, Extends;
      var spurious: bool := *;
      ghost var was := Abs();
      held, parked := false, false;
      if snap.word == RwLock.Word(0, 0) {
        held, seen, word := CmpxchgWeak(Load(), snap, RwLock.Word(0, 1), spurious);
        pcs := pcs[t := if held then Writing else WriteTry(seen)];
      } else {
        var w := Waiter(t, WRITE_QUEUE);
        parked, seen, word, futex := CmpxchgWaitWeak(Load(), futex, w, snap,
            RwLock.Word(snap.word.readers, snap.word.writers + 1), spurious);
        pcs := pcs[t := if parked then WriteParked else WriteTry(seen)];
        if parked {
          arrived := arrived + [w];
        }
      }
      Record(was, t, Choice(Proceed, spurious));
    }

    /** A parked writer polls until it has been woken. */
    method AwaitWrite(t: nat) returns (held: bool)
      requires Valid() && t < |pcs| && pcs[t] == WriteParked
      modifies this
      ensures Later(t) && (held ==> pcs[t] == Writing)
    {
      hide Run, Init, Calls, Extends;
      ExtendsOrder<(nat, Choice)>();
      var patience: nat := *;
      while patience > 0 && pcs[t] == WriteParked
        invariant Later(t) && (pcs[t] == WriteParked || pcs[t] == WriteWoken)
      {
        Others(t);
        patience := patience - 1;
      }
      held := pcs[t] == WriteWoken;
      if held {
        ghost var was := Abs();
        pcs := pcs[t := Writing];
        Record(was, t, Choice(Proceed, false));
      }
    }

    // ----- the queue borrow, handing over and waking -----

    /** No step of a run makes the code's assertions fail. */
    lemma {:induction false} Safe(t: nat, c: Choice)
      requires Valid() && t < |pcs|
      ensures t < |Step(Abs(), t, c).pcs| && Step(Abs(), t, c).pcs[t] != Crashed
    {
      hide Step;
      var longer := trace + [(t, c)];
      assert longer[..|longer| - 1] == trace;
      StepKeepsTasks(Abs(), t, c);
      NeverCrashes(tasks, longer, t);
    }

    /** Takes the queue borrow, which asserts that nobody else has it. */
    method LockQueue(t: nat, next: Pc)
      requires Valid() && t < |pcs|
      requires || (pcs[t].LastGuarded? && next == LastTake(pcs[t].snap))
               || (pcs[t].WriteGuarded? && next == WriteBorrowed)
               || (pcs[t].WriteRelock? && next == WriteDecide(pcs[t].snap, false))
      modifies this
      ensures Later(t) && pcs[t] == next
    {
      hide Run, Init, Calls, Extends;
      ExtendsOrder<(nat, Choice)>();
      LetOthers(t);
      Safe(t, Choice(Proceed, false));
      assert !futex.borrowed;
      ghost var was := Abs();
      futex := TakeBorrow(futex);
      pcs := pcs[t := next];
      Record(was, t, Choice(Proceed, false));
    }

    method UnlockQueue(t: nat, next: Pc)
      requires Valid() && t < |pcs|
      requires || (pcs[t].HandDrop? && next == HandWake(pcs[t].w))
               || (pcs[t].DownDrop? && next == DownCount(pcs[t].snap, pcs[t].list))
      modifies this
      ensures Later(t) && pcs[t] == next
    {
      hide Run, Init, Calls, Extends;
      ExtendsOrder<(nat, Choice)>();
      LetOthers(t);
      ghost var was := Abs();
      futex := DropBorrow(futex);
      pcs := pcs[t := next];
      Record(was, t, Choice(Proceed, false));
    }

    /** Drops the borrow, then wakes the popped writer, then drops the guard. */
    method HandToWriter(t: nat, w: Waiter)
      requires Valid() && t < |pcs| && pcs[t] == HandDrop(w)
      modifies this
      ensures Later(t) && pcs[t] == Idle
    {
      hide Run, Init, Calls, Extends;
      ExtendsOrder<(nat, Choice)>();
      UnlockQueue(t, HandWake(w));
      WakeWaiter(t, w, Leave);
      UnlockWaiters(t);
    }

    /** Swaps the waiter's slot, which asserts that it is waiting. */
    method WakeWaiter(t: nat, w: Waiter, next: Pc)
      requires Valid() && t < |pcs|
      requires || (pcs[t] == HandWake(w) && next == Leave)
               || (pcs[t].DownWake? && pcs[t].list != [] && w == pcs[t].list[0] && next == AfterWake(pcs[t].list))
      modifies this
      ensures Later(t) && pcs[t] == next
    {
      hide Run, Init, Calls, Extends;
      ExtendsOrder<(nat, Choice)>();
      LetOthers(t);
      Safe(t, Choice(Proceed, false));
      assert w.task < |pcs| && w.task != t && Woken(pcs[w.task]).Some?;
      ghost var was := Abs();
      pcs := pcs[t := next][w.task := Woken(pcs[w.task]).value];
      Record(was, t, Choice(Proceed, false));
    }

    method UnlockWaiters(t: nat)
      requires Valid() && t < |pcs| && pcs[t] == Leave
      modifies this
      ensures Later(t) && pcs[t] == Idle
    {
      hide Run, Init, Calls, Extends;
      ExtendsOrder<(nat, Choice)>();
      LetOthers(t);
      ghost var was := Abs();
      futex := Unshare(futex);
      pcs := pcs[t := Idle];
      Record(was, t, Choice(Proceed, false));
    }

    // ----- read_unlock() -----

    /** Gives the read guard back; the last reader hands the lock to a writer. */
    method ReadUnlock(t: nat) returns (done: bool)
      requires Valid() && t < |pcs| && pcs[t] == Reading
      modifies this
      ensures Called(t, Proceed) && (done ==> pcs[t] == Idle)
    {
      hide Run, Init, Calls, Extends;
      ExtendsOrder<(nat, Choice)>();
      var last: bool, snap: Snap<Word>;
      done, last, snap := ReleaseRead(t);
      if !last {
        return;
      }
      var locked := LockWaiters(t, LastGuarded(snap));
      if !locked {
        return false;
      }
      LockQueue(t, LastTake(snap));
      var patience: nat := *;
      while patience > 0
        invariant Called(t, Proceed) && pcs[t] == LastTake(snap)
      {
        LetOthers(t);
        done, snap := TakeLast(t, snap);
        if done {
          return;
        }
        patience := patience - 1;
      }
      return false;
    }

    /** The first loop: count the reader out unless it is the last before a writer. */
    method ReleaseRead(t: nat) returns (done: bool, last: bool, snap: Snap<Word>)
      requires Valid() && t < |pcs| && pcs[t] == Reading
      modifies this
      ensures Called(t, Proceed) && (done ==> !last && pcs[t] == Idle) && (last ==> pcs[t] == LastReader(snap))
    {
      hide Run, Init, Calls, Extends, Step;
      ExtendsOrder<(nat, Choice)>();
      snap := BeginRelease(t);
      done, last := false, false;
      var patience: nat := *;
      while !done && !last && patience > 0
        invariant Called(t, Proceed) && !(done && last)
        invariant pcs[t] == if done then Idle else if last then LastReader(snap) else ReadRelease(snap)
      {
        LetOthers(t);
        done, last, snap := AttemptRelease(t, snap);
        patience := patience - 1;
      }
    }

    method BeginRelease(t: nat) returns (snap: Snap<Word>)
      requires Valid() && t < |pcs| && pcs[t] == Reading
      modifies this
      ensures Called(t, Proceed) && pcs[t] == ReadRelease(snap)
    {
      hide Run, Init, Calls, Extends;
      ghost var was := Abs();
      snap := Load();
      pcs := pcs[t := ReadRelease(snap)];
      Record(was, t, Choice(Proceed, false));
    }

    /** One round; the subtraction never falls below zero. */
    method AttemptRelease(t: nat, snap: Snap<Word>) returns (done: bool, last: bool, seen: Snap<Word>)
      requires Valid() && t < |pcs| && pcs[t] == ReadRelease(snap)
      modifies this
      ensures Later(t) && !(done && last)
      ensures pcs[t] == if done then Idle else if last then LastReader(seen) else ReadRelease(seen)
    {
      hide Run, Init, Calls, Extends;
      var spurious: bool := *;
      Safe(t, Choice(Proceed, spurious));
      ghost var was := Abs();
      done, last := false, false;
      if snap.word.readers == 1 && snap.word.writers > 0 {
        last, seen := true, snap;
        pcs := pcs[t := LastReader(snap)];
      } else {
        assert snap.word.readers >= 1;
        done, seen, word := CmpxchgWeak(Load(), snap, RwLock.Word(snap.word.readers - 1, snap.word.writers), spurious);
        pcs := pcs[t := if done then Idle else ReadRelease(seen)];
      }
      Record(was, t, Choice(Proceed, spurious));
    }

    /** One round of the second loop, and what follows a success. */
    method TakeLast(t: nat, snap: Snap<Word>) returns (done: bool, seen: Snap<Word>)
      requires Valid() && t < |pcs| && pcs[t] == LastTake(snap)
      modifies this
      ensures Later(t) && pcs[t] == if done then Idle else LastTake(seen)
    {
      hide Run, Init, Calls, Extends;
      ExtendsOrder<(nat, Choice)>();
      var spurious: bool := *;
      Safe(t, Choice(Proceed, spurious));
      ghost var was := Abs();
      done, seen, word, futex := CmpxchgEnqueueWeak(Load(), futex, snap, RwLock.Word(0, snap.word.writers), spurious);
      if !done {
        pcs := pcs[t := LastTake(seen)];
        Record(was, t, Choice(Proceed, spurious));
      } else if Queue(futex, WRITE_QUEUE) != [] {
        assert snap.word.writers > 0;
        var w := futex.queues[WRITE_QUEUE][0];
        futex, granted := Pop(futex, WRITE_QUEUE, 1), granted + [w];
        pcs := pcs[t := HandDrop(w)];
        Record(was, t, Choice(Proceed, spurious));
        HandToWriter(t, w);
      } else {
        assert snap.word.writers == 0;
        assert Queue(futex, READ_QUEUE) == [];
        futex := DropBorrow(futex);
        pcs := pcs[t := Leave];
        Record(was, t, Choice(Proceed, spurious));
        UnlockWaiters(t);
      }
    }

    // ----- write_unlock() -----

    /** Gives the write guard back: to nobody, to all waiting readers, or to the first
      waiting writer. */
    method WriteUnlock(t: nat) returns (done: bool)
      requires Valid() && t < |pcs| && pcs[t] == Writing
      modifies this
      ensures Called(t, Proceed) && (done ==> pcs[t] == Idle)
    {
      hide Run, Init, Calls, Extends, Step;
      ExtendsOrder<(nat, Choice)>();
      var more: bool, snap: Snap<Word>, hasReaders: bool;
      more, snap, hasReaders := LookAtQueue(t);
      done := false;
      var patience: nat := *;
      while more && patience > 0
        invariant Called(t, Proceed) && (more ==> pcs[t] == WriteDecide(snap, hasReaders)) && (done ==> pcs[t] == Idle)
      {
        LetOthers(t);
        done, more, snap := Decide(t, snap, hasReaders);
        patience := patience - 1;
      }
      return done;
    }

    /** Takes guard and borrow, then the first snapshot. */
    method LookAtQueue(t: nat) returns (locked: bool, snap: Snap<Word>, hasReaders: bool)
      requires Valid() && t < |pcs| && pcs[t] == Writing
      modifies this
      ensures Called(t, Proceed) && (locked ==> pcs[t] == WriteDecide(snap, hasReaders))
    {
      hide Run, Init, Calls, Extends, Step;
      ExtendsOrder<(nat, Choice)>();
      snap, hasReaders := Load(), false;
      BeginWriteRelease(t);
      locked := LockWaiters(t, WriteGuarded);
      if locked {
        LockQueue(t, WriteBorrowed);
        LetOthers(t);
        snap, hasReaders := FirstLook(t);
      }
    }

    method BeginWriteRelease(t: nat)
      requires Valid() && t < |pcs| && pcs[t] == Writing
      modifies this
      ensures Called(t, Proceed) && pcs[t] == WriteRelease
    {
      hide Run, Init, Calls, Extends;
      ghost var was := Abs();
      pcs := pcs[t := WriteRelease];
      Record(was, t, Choice(Proceed, false));
    }

    method FirstLook(t: nat) returns (snap: Snap<Word>, hasReaders: bool)
      requires Valid() && t < |pcs| && pcs[t] == WriteBorrowed
      modifies this
      ensures Later(t) && pcs[t] == WriteDecide(snap, hasReaders)
    {
      hide Run, Init, Calls, Extends;
      ghost var was := Abs();
      snap := Load();
      hasReaders := Queue(futex, READ_QUEUE) != [];
      pcs := pcs[t := WriteDecide(snap, hasReaders)];
      Record(was, t, Choice(Proceed, false));
    }

    /** One round of the loop. */
    method Decide(t: nat, snap: Snap<Word>, hasReaders: bool) returns (done: bool, more: bool, seen: Snap<Word>)
      requires Valid() && t < |pcs| && pcs[t] == WriteDecide(snap, hasReaders)
      modifies this
      ensures Later(t) && (done ==> !more && pcs[t] == Idle) && (more ==> pcs[t] == WriteDecide(seen, hasReaders))
    {
      hide Run, Init, Calls, Extends, Step;
      ExtendsOrder<(nat, Choice)>();
      NoReaders(t);
      assert snap.word.readers == 0;
      if snap.word.writers == 1 && !hasReaders && snap.inbox.None? {
        done, seen := ReleaseQuietly(t, snap);
        more := !done;
      } else if snap.word.writers == 1 {
        done, more, seen := ReleaseToReaders(t, snap, hasReaders);
      } else {
        done, seen := ReleaseToWriter(t, snap, hasReaders);
        more := !done;
      }
    }

    lemma {:induction false} NoReaders(t: nat)
      requires Valid() && t < |pcs| && pcs[t].WriteDecide?
      ensures pcs[t].snap.word.readers == 0
    {
      hide Run, Init, Calls;
      Safe(t, Choice(Proceed, false));
    }

    /** Nobody seems to wait: give the borrow back and try to clear the word. */
    method ReleaseQuietly(t: nat, snap: Snap<Word>) returns (done: bool, seen: Snap<Word>)
      requires Valid() && t < |pcs| && pcs[t] == WriteDecide(snap, false)
      requires snap.word == RwLock.Word(0, 1) && snap.inbox.None?
      modifies this
      ensures Later(t) && pcs[t] == if done then Idle else WriteDecide(seen, false)
    {
      hide Run, Init, Calls, Extends, Step;
      ExtendsOrder<(nat, Choice)>();
      ReturnQueue(t, snap);
      LetOthers(t);
      done, seen := ClearWord(t, snap);
      if done {
        UnlockWaiters(t);
      } else {
        LockQueue(t, WriteDecide(seen, false));
      }
    }

    method ReturnQueue(t: nat, snap: Snap<Word>)
      requires Valid() && t < |pcs| && pcs[t] == WriteDecide(snap, false)
      requires snap.word == RwLock.Word(0, 1) && snap.inbox.None?
      modifies this
      ensures Later(t) && pcs[t] == WriteFast(snap)
    {
      hide Run, Init, Calls, Extends;
      ghost var was := Abs();
      futex := DropBorrow(futex);
      pcs := pcs[t := WriteFast(snap)];
      Record(was, t, Choice(Proceed, false));
    }

    method ClearWord(t: nat, snap: Snap<Word>) returns (done: bool, seen: Snap<Word>)
      requires Valid() && t < |pcs| && pcs[t] == WriteFast(snap)
      modifies this
      ensures Later(t) && pcs[t] == if done then Leave else WriteRelock(seen)
    {
      hide Run, Init, Calls, Extends;
      var spurious: bool := *;
      ghost var was := Abs();
      done, seen, word := CmpxchgWeak(Load(), snap, RwLock.Word(0, 0), spurious);
      pcs := pcs[t := if done then Leave else WriteRelock(seen)];
      Record(was, t, Choice(Proceed, spurious));
    }

    /** Become a reader, count the waiting readers in, wake them. The counting loop may
      be cut short; then the operation is not done. */
    method ReleaseToReaders(t: nat, snap: Snap<Word>, hasReaders: bool)
      returns (done: bool, more: bool, seen: Snap<Word>)
      requires Valid() && t < |pcs| && pcs[t] == WriteDecide(snap, hasReaders)
      requires snap.word == RwLock.Word(0, 1) && (hasReaders || snap.inbox.Some?)
      modifies this
      ensures Later(t) && (done ==> !more && pcs[t] == Idle) && (more ==> pcs[t] == WriteDecide(seen, hasReaders))
    {
      hide Run, Init, Calls, Extends;
      ExtendsOrder<(nat, Choice)>();
      var spurious: bool := *;
      Safe(t, Choice(Proceed, spurious));
      ghost var was := Abs();
      var ok: bool;
      ok, seen, word, futex := CmpxchgEnqueueWeak(Load(), futex, snap, RwLock.Word(1, 0), spurious);
      if !ok {
        pcs := pcs[t := WriteDecide(seen, hasReaders)];
        Record(was, t, Choice(Proceed, spurious));
        return false, true, seen;
      }
      assert Queue(futex, WRITE_QUEUE) == [];
      var list := futex.queues[READ_QUEUE];
      futex := Pop(futex, READ_QUEUE, |list|);
      pcs := pcs[t := DownDrop(snap, list)];
      Record(was, t, Choice(Proceed, spurious));
      done := WakeReaders(t, snap, list);
      more := false;
    }

    /** The first attempt to count the readers in runs with the snapshot from before
      the downgrade. */
    method WakeReaders(t: nat, snap: Snap<Word>, list: seq<Waiter>) returns (done: bool)
      requires Valid() && t < |pcs| && pcs[t] == DownDrop(snap, list)
      modifies this
      ensures Later(t) && (done ==> pcs[t] == Idle)
    {
      hide Run, Init, Calls, Extends;
      ExtendsOrder<(nat, Choice)>();
      UnlockQueue(t, DownCount(snap, list));
      done := CountReaders(t, snap, list);
      if !done {
        return;
      }
      var i := 0;
      while i < |list|
        invariant 0 <= i <= |list| && Later(t)
        invariant pcs[t] == if i == |list| then Leave else DownWake(list[i..])
      {
        WakeWaiter(t, list[i], AfterWake(list[i..]));
        assert list[i..][1..] == list[i + 1..];
        i := i + 1;
      }
      UnlockWaiters(t);
    }

    method CountReaders(t: nat, snap: Snap<Word>, list: seq<Waiter>) returns (done: bool)
      requires Valid() && t < |pcs| && pcs[t] == DownCount(snap, list)
      modifies this
      ensures Later(t) && (done ==> pcs[t] == if list == [] then Leave else DownWake(list))
    {
      hide Run, Init, Calls, Extends, Step;
      ExtendsOrder<(nat, Choice)>();
      var seen := snap;
      done := false;
      var patience: nat := *;
      while !done && patience > 0
        invariant Later(t)
        invariant pcs[t] == if !done then DownCount(seen, list) else if list == [] then Leave else DownWake(list)
      {
        LetOthers(t);
        done, seen := AttemptCount(t, seen, list);
        patience := patience - 1;
      }
    }

    method AttemptCount(t: nat, snap: Snap<Word>, list: seq<Waiter>) returns (done: bool, seen: Snap<Word>)
      requires Valid() && t < |pcs| && pcs[t] == DownCount(snap, list)
      modifies this
      ensures Later(t)
      ensures pcs[t] == if !done then DownCount(seen, list) else if list == [] then Leave else DownWake(list)
    {
      hide Run, Init, Calls, Extends;
      var spurious: bool := *;
      Safe(t, Choice(Proceed, spurious));
      assert snap.word.readers + |list| >= 1;
      ghost var was := Abs();
      done, seen, word := CmpxchgWeak(Load(), snap, RwLock.Word(snap.word.readers + |list| - 1, snap.word.writers),
          spurious);
      pcs := pcs[t := if !done then DownCount(seen, list) else if list == [] then Leave else DownWake(list)];
      Record(was, t, Choice(Proceed, spurious));
    }

    /** Hand the lock to the first waiting writer. */
    method ReleaseToWriter(t: nat, snap: Snap<Word>, hasReaders: bool) returns (done: bool, seen: Snap<Word>)
      requires Valid() && t < |pcs| && pcs[t] == WriteDecide(snap, hasReaders) && snap.word.readers == 0
      requires snap.word.writers != 1
      modifies this
      ensures Later(t) && pcs[t] == if done then Idle else WriteDecide(seen, hasReaders)
    {
      hide Run, Init, Calls, Extends;
      ExtendsOrder<(nat, Choice)>();
      var spurious: bool := *;
      Safe(t, Choice(Proceed, spurious));
      assert snap.word.writers > 1;
      ghost var was := Abs();
      done, seen, word, futex := CmpxchgEnqueueWeak(Load(), futex, snap,
          RwLock.Word(snap.word.readers, snap.word.writers - 1), spurious);
      if !done {
        pcs := pcs[t := WriteDecide(seen, hasReaders)];
        Record(was, t, Choice(Proceed, spurious));
      } else {
        assert Queue(futex, WRITE_QUEUE) != [];
        var w := futex.queues[WRITE_QUEUE][0];
        futex, granted := Pop(futex, WRITE_QUEUE, 1), granted + [w];
        pcs := pcs[t := HandDrop(w)];
        Record(was, t, Choice(Proceed, spurious));
        HandToWriter(t, w);
      }
    }
  }
}
