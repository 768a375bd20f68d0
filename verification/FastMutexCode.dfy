/** The barging mutex as its code is written, in the manner of RwLockCode: one object
  updated in place by loops over a snapshot, with any steps of other tasks in between,
  shown to go on with a run of the machine in FastMutex.
 */
module FastMutexCode {
  import opened Attempts
  import opened FastMutex
  import opened FastMutexOrder
  import opened FastMutexProof
  import opened Futex
  import opened Options
  import opened Traces

  type Trace = seq<(nat, Choice)>

  class Mutex {
    var word: Word
    var futex: Futex
    /** Where every task is, and the histories of FastMutex. */
    var pcs: seq<Pc>
    var holder: Option<nat>
    var awake: Option<nat>
    ghost const tasks: nat
    ghost var trace: Trace

    function Abs(): State
      reads this
    {
      State(word, futex, pcs, holder, awake)
    }

    /** The state is the outcome of a run. */
    ghost predicate Valid()
      reads this
    {
      Abs() == Run(Init(tasks), trace)
    }

    /** What the task has asked for so far. */
    ghost function Begun(t: nat): seq<bool>
      reads this`trace
    {
      Calls(tasks, trace, t)
    }

    /** The same object, later; the task has not asked for anything new. */
    twostate predicate Later(t: nat)
      reads this
    {
      Valid() && |pcs| == old(|pcs|) && Extends(old(trace), trace) && Begun(t) == old(Begun(t))
    }

    /** The same object, later; the task has asked for the mutex, or to unlock it, and for nothing else. */
    twostate predicate Called(t: nat, start: bool)
      reads this
    {
      Valid() && |pcs| == old(|pcs|) && Extends(old(trace), trace) && Begun(t) == old(Begun(t)) + [start]
    }

    constructor (tasks: nat)
      ensures Valid() && this.tasks == tasks && trace == []
    {
      word, futex, pcs, holder, awake := FastMutex.Word(false, false, 0), New(1), seq(tasks, _ => Idle), None, None;
      this.tasks, trace := tasks, [];
    }

    // ----- the rest of the world -----

    /** A step that was taken is added to the run. */
    ghost method Record(was: State, t: nat, c: Choice)
      requires was == Run(Init(tasks), trace) && t < |was.pcs| && Abs() == Step(was, t, c)
      modifies this`trace
      ensures Valid() && Extends(old(trace), trace)
      ensures forall i {:trigger Begun(i)} ::
                Begun(i) == old(Begun(i)) + if i == t && BetweenCalls(was.pcs[t]) then [c.start] else []
    {
      hide Step, BetweenCalls;
      forall i: nat
        ensures Calls(tasks, trace + [(t, c)], i)
             == Calls(tasks, trace, i) + if i == t && BetweenCalls(was.pcs[t]) then [c.start] else []
      {
        CallsOne(tasks, trace, t, c, i);
      }
      trace := trace + [(t, c)];
      assert trace[..|trace| - 1] == old(trace);
    }

    /** Any other tasks take any steps; at most they wake the caller. */
    method Others(t: nat)
      requires Valid() && t < |pcs|
      modifies this
      ensures Later(t) && (pcs[t] == old(pcs[t]) || Wakened(old(pcs[t]), pcs[t]))
    {
      hide Run, Init, Calls, Extends;
      ExtendsOrder<(nat, Choice)>();
      var moves: seq<(nat, Choice)> := *;
      var i := 0;
      while i < |moves|
        invariant 0 <= i <= |moves| && Later(t)
        invariant pcs[t] == old(pcs[t]) || Wakened(old(pcs[t]), pcs[t])
      {
        var (u, c) := moves[i];
        if u < |pcs| && u != t {
          ghost var was := Abs();
          StepOfOther(Abs(), u, c, t);
          var s := Step(Abs(), u, c);
          word, futex, pcs, holder, awake := s.word, s.futex, s.pcs, s.holder, s.awake;
          Record(was, u, c);
        }
        i := i + 1;
      }
    }

    /** The same for a task that is not waiting: nobody moves it. */
    method LetOthers(t: nat)
      requires Valid() && t < |pcs| && !pcs[t].Parked?
      modifies this
      ensures Later(t) && pcs[t] == old(pcs[t])
    {
      hide Run, Init, Calls;
      Others(t);
    }

    /** No step of a run makes the code's assertions fail. */
    lemma {:induction false} Safe(t: nat, c: Choice)
      requires Valid() && t < |pcs|
      ensures t < |Step(Abs(), t, c).pcs| && !Step(Abs(), t, c).pcs[t].Crashed? && !Step(Abs(), t, c).pcs[t].Return?
    {
      hide Step;
      var longer := trace + [(t, c)];
      assert longer[..|longer| - 1] == trace;
      StepKeepsTasks(Abs(), t, c);
      NeverCrashes(tasks, longer, t);
    }

    // ----- the futex -----

    function Load(): Snap<Word>
      reads this
    {
      Snap(word, Top(futex))
    }


    // ----- lock() -----

    /** Returns with the mutex, if it is let to finish. */
    method Lock(t: nat) returns (held: bool)
      requires Valid() && t < |pcs| && pcs[t] == Idle
      modifies this
      ensures Called(t, true) && (held ==> pcs[t] == Held)
    {
      hide Run, Init, Calls, Extends;
      ExtendsOrder<(nat, Choice)>();
      ghost var begun := Abs();
      var snap := Load();
      pcs := pcs[t := LockTry(snap)];
      Record(begun, t, Choice(true, false));
      var parked := false;
      held := false;
      var patience: nat := *;
      while !held && !parked && patience > 0
        invariant Called(t, true) && !(held && parked)
        invariant pcs[t] == if held then Held else if parked then Parked(snap, false) else LockTry(snap)
      {
        LetOthers(t);
        held, parked, snap := AttemptLock(t, snap);
        patience := patience - 1;
      }
      if parked {
        held := LockWoken(t, snap);
      }
    }

    /** One round of the first loop. */
    method AttemptLock(t: nat, snap: Snap<Word>) returns (held: bool, parked: bool, seen: Snap<Word>)
      requires Valid() && t < |pcs| && pcs[t] == LockTry(snap)
      modifies this
      ensures Later(t) && !(held && parked)
      ensures pcs[t] == if held then Held else if parked then Parked(seen, false) else LockTry(seen)
    {
      hide Run, Init, Calls, Extends;
      var spurious: bool := *;
      ghost var was := Abs();
      held, parked := false, false;
      if snap.word.locked {
        parked, seen, word, futex := CmpxchgWaitWeak(Load(), futex, Waiter(t, 0), snap,
            snap.word.(waiters := snap.word.waiters + 1), spurious);
        pcs := pcs[t := if parked then Parked(seen, false) else LockTry(seen)];
      } else {
        held, seen, word := CmpxchgWeak(Load(), snap, snap.word.(locked := true), spurious);
        pcs := pcs[t := if held then Held else LockTry(seen)];
        if held {
          holder := Some(t);
        }
      }
      Record(was, t, Choice(false, spurious));
    }

    /** The second loop: a woken task goes on with the snapshot with which it went to
      sleep, and may have to sleep again. */
    method LockWoken(t: nat, parkedWith: Snap<Word>) returns (held: bool)
      requires Valid() && t < |pcs| && pcs[t] == Parked(parkedWith, false)
      modifies this
      ensures Later(t) && (held ==> pcs[t] == Held)
    {
      hide Run, Init, Calls, Extends, Step;
      ExtendsOrder<(nat, Choice)>();
      var snap := parkedWith;
      var awake_ := Await(t, snap);
      held := false;
      var patience: nat := *;
      while awake_ && !held && patience > 0
        invariant Later(t) && (held ==> pcs[t] == Held) && (awake_ && !held ==> pcs[t] == Retry(snap))
      {
        LetOthers(t);
        var parked: bool;
        held, parked, snap := AttemptRetry(t, snap);
        if parked {
          awake_ := Await(t, snap);
        }
        patience := patience - 1;
      }
    }

    method AttemptRetry(t: nat, snap: Snap<Word>) returns (held: bool, parked: bool, seen: Snap<Word>)
      requires Valid() && t < |pcs| && pcs[t] == Retry(snap)
      modifies this
      ensures Later(t) && !(held && parked)
      ensures pcs[t] == if held then Held else if parked then Parked(seen, false) else Retry(seen)
    {
      hide Run, Init, Calls, Extends;
      var spurious: bool := *;
      Safe(t, Choice(false, spurious));
      ghost var was := Abs();
      held, parked := false, false;
      if snap.word.locked {
        parked, seen, word, futex := CmpxchgWaitWeak(Load(), futex, Waiter(t, 0), snap, snap.word.(waking := false),
            spurious);
        pcs := pcs[t := if parked then Parked(seen, false) else Retry(seen)];
        if parked {
          awake := None;
        }
      } else {
        assert snap.word.waiters >= 1;
        held, seen, word := CmpxchgWeak(Load(), snap, FastMutex.Word(true, false, snap.word.waiters - 1), spurious);
        pcs := pcs[t := if held then Held else Retry(seen)];
        if held {
          holder, awake := Some(t), None;
        }
      }
      Record(was, t, Choice(false, spurious));
    }

    /** A parked task polls until it has been woken. */
    method Await(t: nat, snap: Snap<Word>) returns (woken: bool)
      requires Valid() && t < |pcs| && pcs[t] == Parked(snap, false)
      modifies this
      ensures Later(t) && (woken ==> pcs[t] == Retry(snap))
    {
      hide Run, Init, Calls, Extends;
      ExtendsOrder<(nat, Choice)>();
      var patience: nat := *;
      while patience > 0 && pcs[t] == Parked(snap, false)
        invariant Later(t) && (pcs[t] == Parked(snap, false) || pcs[t] == Parked(snap, true))
      {
        Others(t);
        patience := patience - 1;
      }
      woken := pcs[t] == Parked(snap, true);
      if woken {
        ghost var was := Abs();
        pcs := pcs[t := Retry(snap)];
        Record(was, t, Choice(false, false));
      }
    }

    // ----- unlock() -----

    /** Releases the mutex and wakes a waiter unless one is being woken; whoever is woken
      meanwhile is woken in the order of the line. */
    method Unlock(t: nat) returns (done: bool)
      requires Valid() && t < |pcs| && pcs[t] == Held
      modifies this
      ensures Called(t, false) && (done ==> pcs[t] == Idle)
      ensures Roused(tasks, old(trace)) + Sleepers(old(futex)) <= Roused(tasks, trace) + Sleepers(futex)
    {
      hide Run, Init, Calls, Extends, Step, Roused, Sleepers;
      done := Release(t);
      InOrder(old(futex), old(trace));
    }

    lemma {:induction false} InOrder(was: Futex, before: seq<(nat, Choice)>)
      requires Valid() && Extends(before, trace) && was == Run(Init(tasks), before).futex
      ensures Roused(tasks, before) + Sleepers(was) <= Roused(tasks, trace) + Sleepers(futex)
    {
      hide Run, Init, Calls, Roused, Sleepers;
      NoOvertaking(tasks, before, trace[|before|..]);
      assert before + trace[|before|..] == trace;
    }

    method Release(t: nat) returns (done: bool)
      requires Valid() && t < |pcs| && pcs[t] == Held
      modifies this
      ensures Called(t, false) && (done ==> pcs[t] == Idle)
    {
      hide Run, Init, Calls, Extends, Step;
      ExtendsOrder<(nat, Choice)>();
      var more: bool, snap: Snap<Word>;
      done, more, snap := UnlockQuickly(t);
      if !more {
        return;
      }
      var locked: bool, queued: bool;
      locked, queued := LookAtQueue(t, snap);
      var patience: nat := *;
      while locked && !done && patience > 0
        invariant Called(t, false) && (locked ==> pcs[t] == if done then Idle else UnlockDecide(snap, queued))
        invariant done ==> locked
      {
        LetOthers(t);
        done, snap := Decide(t, snap, queued);
        patience := patience - 1;
      }
    }

    /** The first loop: clear the flag unless somebody has to be woken. The source tests
      waking a second time, for a branch that is never taken. */
    method UnlockQuickly(t: nat) returns (done: bool, more: bool, snap: Snap<Word>)
      requires Valid() && t < |pcs| && pcs[t] == Held
      modifies this
      ensures Called(t, false) && (done ==> !more && pcs[t] == Idle) && (more ==> pcs[t] == UnlockGuard(snap))
    {
      hide Run, Init, Calls, Extends, Step;
      ExtendsOrder<(nat, Choice)>();
      snap := BeginUnlock(t);
      done, more := false, false;
      var patience: nat := *;
      while !done && !more && patience > 0
        invariant Called(t, false) && !(done && more)
        invariant pcs[t] == if done then Idle else if more then UnlockGuard(snap) else UnlockTry(snap)
      {
        LetOthers(t);
        done, more, snap := AttemptUnlock(t, snap);
        patience := patience - 1;
      }
    }

    method BeginUnlock(t: nat) returns (snap: Snap<Word>)
      requires Valid() && t < |pcs| && pcs[t] == Held
      modifies this
      ensures Called(t, false) && pcs[t] == UnlockTry(snap)
    {
      hide Run, Init, Calls, Extends;
      ghost var was := Abs();
      snap := Load();
      pcs := pcs[t := UnlockTry(snap)];
      Record(was, t, Choice(false, false));
    }

    method AttemptUnlock(t: nat, snap: Snap<Word>) returns (done: bool, more: bool, seen: Snap<Word>)
      requires Valid() && t < |pcs| && pcs[t] == UnlockTry(snap)
      modifies this
      ensures Later(t) && !(done && more)
      ensures pcs[t] == if done then Idle else if more then UnlockGuard(seen) else UnlockTry(seen)
    {
      hide Run, Init, Calls, Extends;
      var spurious: bool := *;
      ghost var was := Abs();
      done, more := false, false;
      if snap.word.waking || snap.word.waiters == 0 {
        done, seen, word := CmpxchgWeak(Load(), snap, snap.word.(locked := false), spurious);
        pcs := pcs[t := if done then Idle else UnlockTry(seen)];
        if done {
          holder := None;
        }
      } else {
        more, seen := true, snap;
        pcs := pcs[t := UnlockGuard(snap)];
      }
      Record(was, t, Choice(false, spurious));
    }

    /** Takes guard and borrow; the borrow asserts that nobody else has it. */
    method LookAtQueue(t: nat, snap: Snap<Word>) returns (locked: bool, queued: bool)
      requires Valid() && t < |pcs| && pcs[t] == UnlockGuard(snap)
      modifies this
      ensures Later(t) && (locked ==> pcs[t] == UnlockDecide(snap, queued))
    {
      hide Run, Init, Calls, Extends, Step;
      ExtendsOrder<(nat, Choice)>();
      locked := LockWaiters(t, snap);
      queued := false;
      if locked {
        queued := LockQueue(t, snap);
      }
    }

    method LockWaiters(t: nat, snap: Snap<Word>) returns (locked: bool)
      requires Valid() && t < |pcs| && pcs[t] == UnlockGuard(snap)
      modifies this
      ensures Later(t) && (locked ==> pcs[t] == UnlockBorrow(snap))
    {
      hide Run, Init, Calls, Extends;
      ExtendsOrder<(nat, Choice)>();
      var patience: nat := *;
      while patience > 0
        invariant Later(t) && pcs[t] == UnlockGuard(snap)
      {
        LetOthers(t);
        if !futex.exclusive {
          ghost var was := Abs();
          futex := Share(futex);
          pcs := pcs[t := UnlockBorrow(snap)];
          Record(was, t, Choice(false, false));
          return true;
        }
        patience := patience - 1;
      }
      return false;
    }

    method LockQueue(t: nat, snap: Snap<Word>) returns (queued: bool)
      requires Valid() && t < |pcs| && pcs[t] == UnlockBorrow(snap)
      modifies this
      ensures Later(t) && pcs[t] == UnlockDecide(snap, queued)
    {
      hide Run, Init, Calls, Extends;
      ExtendsOrder<(nat, Choice)>();
      LetOthers(t);
      Safe(t, Choice(false, false));
      assert !futex.borrowed;
      ghost var was := Abs();
      queued := Front(futex) != [];
      futex := TakeBorrow(futex);
      pcs := pcs[t := UnlockDecide(snap, queued)];
      Record(was, t, Choice(false, false));
    }

    /** One round of the second loop, and what follows a success. A wake-up is never
      under way here, and a waiter is always found. */
    method Decide(t: nat, snap: Snap<Word>, queued: bool) returns (done: bool, seen: Snap<Word>)
      requires Valid() && t < |pcs| && pcs[t] == UnlockDecide(snap, queued)
      modifies this
      ensures Later(t) && pcs[t] == if done then Idle else UnlockDecide(seen, queued)
    {
      hide Run, Init, Calls, Extends, Step;
      ExtendsOrder<(nat, Choice)>();
      SomebodyWaits(t);
      var swapped: bool, w: Waiter;
      if queued {
        swapped, seen, w := TakeQueued(t, snap);
      } else {
        assert snap.inbox.Some?;
        swapped, seen, w := TakeInbox(t, snap);
      }
      done := swapped;
      if swapped {
        WakeWaiter(t, w);
      }
    }

    lemma {:induction false} SomebodyWaits(t: nat)
      requires Valid() && t < |pcs| && pcs[t].UnlockDecide?
      ensures (pcs[t].queued || pcs[t].snap.inbox.Some?) && !pcs[t].snap.word.waking
    {
      hide Run, Init, Calls;
      NeverCrashes(tasks, trace, t);
    }

    method TakeQueued(t: nat, snap: Snap<Word>) returns (ok: bool, seen: Snap<Word>, w: Waiter)
      requires Valid() && t < |pcs| && pcs[t] == UnlockDecide(snap, true) && !snap.word.waking
      modifies this
      ensures Later(t) && pcs[t] == if ok then HandDrop(w) else UnlockDecide(seen, true)
    {
      hide Run, Init, Calls, Extends, Enqueue;
      var spurious: bool := *;
      Safe(t, Choice(false, spurious));
      ghost var was := Abs();
      w := Waiter(t, 0);
      ok, seen, word := CmpxchgWeak(Load(), snap, snap.word.(locked := false, waking := true), spurious);
      if ok {
        assert Front(futex) != [];
        w := futex.queues[0][0];
        futex, holder, awake := Pop(futex, 0, 1), None, Some(t);
      }
      pcs := pcs[t := if ok then HandDrop(w) else UnlockDecide(seen, true)];
      Record(was, t, Choice(false, spurious));
    }

    method TakeInbox(t: nat, snap: Snap<Word>) returns (ok: bool, seen: Snap<Word>, w: Waiter)
      requires Valid() && t < |pcs| && pcs[t] == UnlockDecide(snap, false) && !snap.word.waking && snap.inbox.Some?
      modifies this
      ensures Later(t) && pcs[t] == if ok then HandDrop(w) else UnlockDecide(seen, false)
    {
      hide Run, Init, Calls, Extends, Enqueue;
      var spurious: bool := *;
      Safe(t, Choice(false, spurious));
      ghost var was := Abs();
      w := Waiter(t, 0);
      ok, seen, word, futex := CmpxchgEnqueueWeak(Load(), futex, snap, snap.word.(locked := false, waking := true),
          spurious);
      if ok {
        assert Front(futex) != [];
        w := futex.queues[0][0];
        futex, holder, awake := Pop(futex, 0, 1), None, Some(t);
      }
      pcs := pcs[t := if ok then HandDrop(w) else UnlockDecide(seen, false)];
      Record(was, t, Choice(false, spurious));
    }

    /** Drops the borrow, wakes the popped waiter, whose slot must be waiting, and drops
      the guard. */
    method WakeWaiter(t: nat, w: Waiter)
      requires Valid() && t < |pcs| && pcs[t] == HandDrop(w)
      modifies this
      ensures Later(t) && pcs[t] == Idle
    {
      hide Run, Init, Calls, Extends;
      ExtendsOrder<(nat, Choice)>();
      UnlockQueue(t, w);
      SwapSlot(t, w);
      LetOthers(t);
      ghost var was := Abs();
      futex := Unshare(futex);
      pcs := pcs[t := Idle];
      Record(was, t, Choice(false, false));
    }

    method UnlockQueue(t: nat, w: Waiter)
      requires Valid() && t < |pcs| && pcs[t] == HandDrop(w)
      modifies this
      ensures Later(t) && pcs[t] == HandWake(w)
    {
      hide Run, Init, Calls, Extends;
      ExtendsOrder<(nat, Choice)>();
      LetOthers(t);
      ghost var was := Abs();
      futex := DropBorrow(futex);
      pcs := pcs[t := HandWake(w)];
      Record(was, t, Choice(false, false));
    }

    method SwapSlot(t: nat, w: Waiter)
      requires Valid() && t < |pcs| && pcs[t] == HandWake(w)
      modifies this
      ensures Later(t) && pcs[t] == Leave
    {
      hide Run, Init, Calls, Extends;
      ExtendsOrder<(nat, Choice)>();
      LetOthers(t);
      Safe(t, Choice(false, false));
      assert w.task < |pcs| && w.task != t && pcs[w.task].Parked? && !pcs[w.task].woken;
      ghost var was := Abs();
      awake := Some(w.task);
      pcs := pcs[t := Leave][w.task := Parked(pcs[w.task].snap, true)];
      Record(was, t, Choice(false, false));
    }
  }

  /** The slot of a parked task has been swapped to Done. */
  predicate Wakened(pc: Pc, pc': Pc)
  {
    pc.Parked? && !pc.woken && pc' == Parked(pc.snap, true)
  }

  lemma {:induction false} LockMoves(s: State, u: nat, c: Choice)
    requires u < |s.pcs|
    requires s.pcs[u].Idle? || s.pcs[u].LockTry? || s.pcs[u].Parked? || s.pcs[u].Retry? || s.pcs[u].Held?
    ensures |Step(s, u, c).pcs| == |s.pcs| && Step(s, u, c).pcs == s.pcs[u := Step(s, u, c).pcs[u]]
  {
  }

  lemma {:induction false} UnlockMoves(s: State, u: nat, c: Choice)
    requires u < |s.pcs|
    requires !s.pcs[u].Idle? && !s.pcs[u].LockTry? && !s.pcs[u].Parked? && !s.pcs[u].Retry? && !s.pcs[u].Held?
    requires !s.pcs[u].HandWake?
    ensures |Step(s, u, c).pcs| == |s.pcs| && Step(s, u, c).pcs == s.pcs[u := Step(s, u, c).pcs[u]]
  {
  }

  lemma {:induction false} WakeMoves(s: State, u: nat, w: Waiter, t: nat)
    requires u < |s.pcs| && t < |s.pcs| && t != u
    ensures var s' := Wake(s, u, w);
            |s'.pcs| == |s.pcs| && (s'.pcs[t] == s.pcs[t] || Wakened(s.pcs[t], s'.pcs[t]))
  {
  }

  /** A step of another task moves this one at most by waking it. */
  lemma {:induction false} StepOfOther(s: State, u: nat, c: Choice, t: nat)
    requires u < |s.pcs| && t < |s.pcs| && u != t
    ensures var s' := Step(s, u, c);
            |s'.pcs| == |s.pcs| && (s'.pcs[t] == s.pcs[t] || Wakened(s.pcs[t], s'.pcs[t]))
  {
    match s.pcs[u]
    case HandWake(w) =>
      hide Wake;
      WakeMoves(s, u, w, t);
    case Idle | LockTry(_) | Parked(_, _) | Retry(_) | Held =>
      hide Step;
      LockMoves(s, u, c);
    case _ =>
      hide Step;
      UnlockMoves(s, u, c);
  }
}
