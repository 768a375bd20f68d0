/** The once-cell as its code is written, in the manner of RwLockCode: one object updated
  in place by loops over a snapshot, with any steps of other tasks in between, shown to
  go on with a run of the machine in OnceCell.
 */
module OnceCellCode {
  import opened Attempts
  import opened Futex
  import opened OnceCell
  import opened OnceCellProof
  import opened Options
  import opened Traces

  type Trace = seq<(nat, Choice)>

  class Cell {
    var phase: Phase
    var value: Option<nat>
    var futex: Futex
    /** Where every task is, and the history of OnceCell. */
    var pcs: seq<Pc>
    var initializer: Option<nat>
    ghost const tasks: nat
    ghost var trace: Trace

    function Abs(): State
      reads this
    {
      State(phase, value, futex, pcs, initializer)
    }

    /** The state is the outcome of a run. */
    ghost predicate Valid()
      reads this
    {
      Abs() == Run(Start(tasks), trace)
    }

    /** What the task has asked for so far. */
    ghost function Begun(t: nat): seq<Op>
      reads this`trace
    {
      Calls(tasks, trace, t)
    }

    /** The same object, later; the task has not asked for anything new. */
    twostate predicate Later(t: nat)
      reads this
    {
      Valid() && |pcs| == old(|pcs|) && Extends(old(trace), trace) && Begun(t) == old(Begun(t))
    }

    /** The same object, later; the task has asked for op and for nothing else. */
    twostate predicate Called(t: nat, op: Op)
      reads this
    {
      Valid() && |pcs| == old(|pcs|) && Extends(old(trace), trace) && Begun(t) == old(Begun(t)) + [op]
    }

    constructor (tasks: nat)
      ensures Valid() && this.tasks == tasks && trace == []
    {
      phase, value, futex, pcs, initializer := Uninit, None, New(1), seq(tasks, _ => Idle), None;
      this.tasks, trace := tasks, [];
    }

    // ----- the rest of the world -----

    /** A step that was taken is added to the run. */
    ghost method Record(was: State, t: nat, c: Choice)
      requires was == Run(Start(tasks), trace) && t < |was.pcs| && Abs() == Step(was, t, c)
      modifies this`trace
      ensures Valid() && Extends(old(trace), trace)
      ensures forall i {:trigger Begun(i)} ::
                Begun(i) == old(Begun(i)) + if i == t && BetweenCalls(was.pcs[t]) then [c.op] else []
    {
      hide Step, BetweenCalls;
      forall i: nat
        ensures Calls(tasks, trace + [(t, c)], i)
             == Calls(tasks, trace, i) + if i == t && BetweenCalls(was.pcs[t]) then [c.op] else []
      {
        CallsOne(tasks, trace, t, c, i);
      }
      trace := trace + [(t, c)];
      assert trace[..|trace| - 1] == old(trace);
    }

    /** Any other tasks take any steps; at most they wake the caller, and none of them makes
      it the initializer. */
    method Others(t: nat)
      requires Valid() && t < |pcs|
      modifies this
      ensures Later(t) && (pcs[t] == old(pcs[t]) || Woken(old(pcs[t])) == Some(pcs[t]))
      ensures initializer == old(initializer) || initializer != Some(t)
    {
      hide Run, Start, Calls, Extends;
      ExtendsOrder<(nat, Choice)>();
      var moves: seq<(nat, Choice)> := *;
      var i := 0;
      while i < |moves|
        invariant 0 <= i <= |moves| && Later(t)
        invariant pcs[t] == old(pcs[t]) || Woken(old(pcs[t])) == Some(pcs[t])
        invariant initializer == old(initializer) || initializer != Some(t)
      {
        var (u, c) := moves[i];
        if u < |pcs| && u != t {
          ghost var was := Abs();
          StepOfOther(Abs(), u, c, t);
          Initializes(Abs(), u, c);
          var s := Step(Abs(), u, c);
          phase, value, futex, pcs, initializer := s.phase, s.value, s.futex, s.pcs, s.initializer;
          Record(was, u, c);
        }
        i := i + 1;
      }
    }

    /** The same for a task that is not waiting: nobody moves it. */
    method LetOthers(t: nat)
      requires Valid() && t < |pcs| && Woken(pcs[t]).None?
      modifies this
      ensures Later(t) && pcs[t] == old(pcs[t])
      ensures initializer == old(initializer) || initializer != Some(t)
    {
      hide Run, Start, Calls;
      Others(t);
    }

    /** No step of a run makes the code's assertions fail. */
    lemma {:induction false} Safe(t: nat, c: Choice)
      requires Valid() && t < |pcs|
      ensures t < |Step(Abs(), t, c).pcs| && !Step(Abs(), t, c).pcs[t].Crashed?
    {
      hide Step;
      var longer := trace + [(t, c)];
      assert longer[..|longer| - 1] == trace;
      StepKeepsTasks(Abs(), t, c);
      NeverCrashes(tasks, longer, t);
    }

    // ----- the futex -----

    function Load(): Snap<Phase>
      reads this
    {
      Snap(phase, Top(futex))
    }


    // ----- get_or_init() -----

    /** init is what the caller's initializer comes to if it is run: a value, or none if it
      is dropped. Returns the value the cell was given; if it was this call that initialized
      the cell, that is the value of init. Returns none if it panics because the cell is
      poisoned, is dropped, or is not let to finish. */
    method GetOrInit(t: nat, init: Option<nat>) returns (r: Option<nat>)
      requires Valid() && t < |pcs| && pcs[t] == Idle
      modifies this
      ensures Called(t, Op.GetOrInit) && (r.Some? ==> phase.Init? && value == r)
      ensures r.Some? && initializer == Some(t) && old(initializer) != Some(t) ==> r == init
    {
      hide Run, Start, Calls, Extends, Step;
      ExtendsOrder<(nat, Choice)>();
      var snap := Begin(t);
      var used := false;
      r := None;
      var patience: nat := *;
      while patience > 0
        invariant Called(t, Op.GetOrInit) && pcs[t] == Look(snap, used)
        invariant initializer == old(initializer) || initializer != Some(t)
      {
        LetOthers(t);
        match snap.word {
          case Uninit =>
            var won: bool;
            won, snap := TryStart(t, snap, used);
            if won {
              r := Initialize(t, init);
              return;
            }
          case Active =>
            var parked: bool;
            parked, snap := TryWait(t, snap, used);
            if parked {
              var woken: bool;
              woken, snap := Await(t);
              if !woken {
                return;
              }
              used := true;
            }
          case Poison =>
            Panic(t, snap, used);
            return;
          case Init =>
            r := ReadValue(t, snap, used);
            return;
        }
        patience := patience - 1;
      }
    }

    method Begin(t: nat) returns (snap: Snap<Phase>)
      requires Valid() && t < |pcs| && pcs[t] == Idle
      modifies this
      ensures Called(t, Op.GetOrInit) && pcs[t] == Look(snap, false) && initializer == old(initializer)
    {
      hide Run, Start, Calls, Extends;
      ghost var was := Abs();
      snap := Load();
      pcs := pcs[t := Look(snap, false)];
      Record(was, t, Choice(Op.GetOrInit, false));
    }

    method TryStart(t: nat, snap: Snap<Phase>, used: bool) returns (won: bool, seen: Snap<Phase>)
      requires Valid() && t < |pcs| && pcs[t] == Look(snap, used) && snap.word.Uninit?
      modifies this
      ensures Later(t) && pcs[t] == if won then Running else Look(seen, used)
      ensures won || initializer == old(initializer)
    {
      hide Run, Start, Calls, Extends;
      var spurious: bool := *;
      ghost var was := Abs();
      won, seen, phase := CmpxchgWeak(Load(), snap, Active, spurious);
      pcs := pcs[t := if won then Running else Look(seen, used)];
      if won {
        initializer := Some(t);
      }
      Record(was, t, Choice(Op.GetOrInit, spurious));
    }

    /** The waiter of this call is fresh: a call that was woken never waits again. */
    method TryWait(t: nat, snap: Snap<Phase>, used: bool) returns (parked: bool, seen: Snap<Phase>)
      requires Valid() && t < |pcs| && pcs[t] == Look(snap, used) && snap.word.Active?
      modifies this
      ensures Later(t) && pcs[t] == if parked then Parked(false) else Look(seen, used)
      ensures initializer == old(initializer)
    {
      hide Run, Start, Calls, Extends;
      var spurious: bool := *;
      Safe(t, Choice(Op.GetOrInit, spurious));
      assert !used;
      ghost var was := Abs();
      parked, seen, phase, futex := CmpxchgWaitWeak(Load(), futex, Waiter(t, 0), snap, Active, spurious);
      pcs := pcs[t := if parked then Parked(false) else Look(seen, used)];
      Record(was, t, Choice(Op.GetOrInit, spurious));
    }

    /** A parked call polls until it has been woken, and looks at the cell again. */
    method Await(t: nat) returns (woken: bool, snap: Snap<Phase>)
      requires Valid() && t < |pcs| && pcs[t] == Parked(false)
      modifies this
      ensures Later(t) && (woken ==> pcs[t] == Look(snap, true))
      ensures initializer == old(initializer) || initializer != Some(t)
    {
      hide Run, Start, Calls, Extends;
      ExtendsOrder<(nat, Choice)>();
      var patience: nat := *;
      while patience > 0 && pcs[t] == Parked(false)
        invariant Later(t) && (pcs[t] == Parked(false) || pcs[t] == Parked(true))
        invariant initializer == old(initializer) || initializer != Some(t)
      {
        Others(t);
        patience := patience - 1;
      }
      woken := pcs[t] == Parked(true);
      snap := Load();
      if woken {
        ghost var was := Abs();
        pcs := pcs[t := Look(snap, true)];
        Record(was, t, Choice(Op.GetOrInit, false));
      }
    }

    method Panic(t: nat, snap: Snap<Phase>, used: bool)
      requires Valid() && t < |pcs| && pcs[t] == Look(snap, used) && snap.word.Poison?
      modifies this
      ensures Later(t) && pcs[t] == Panicked
    {
      hide Run, Start, Calls, Extends;
      ghost var was := Abs();
      pcs := pcs[t := Panicked];
      Record(was, t, Choice(Op.GetOrInit, false));
    }

    /** Reading the slot of a cell that says Init: it has been written. */
    method ReadValue(t: nat, snap: Snap<Phase>, used: bool) returns (r: Option<nat>)
      requires Valid() && t < |pcs| && pcs[t] == Look(snap, used) && snap.word.Init?
      modifies this
      ensures Later(t) && r.Some? && phase.Init? && value == r && initializer == old(initializer)
    {
      hide Run, Start, Calls, Extends;
      Safe(t, Choice(Op.GetOrInit, false));
      assert value.Some?;
      ghost var was := Abs();
      r := value;
      pcs := pcs[t := Got(value.value)];
      Record(was, t, Choice(Op.GetOrInit, false));
      GotIsSet(t);
    }

    lemma {:induction false} GotIsSet(t: nat)
      requires Valid() && t < |pcs| && pcs[t].Got?
      ensures phase.Init? && value == Some(pcs[t].value)
    {
      hide Run, Start, Calls;
      NeverCrashes(tasks, trace, t);
    }

    // ----- the initializer -----

    /** The initializer yields its value, or is dropped and poisons the cell. */
    method Initialize(t: nat, init: Option<nat>) returns (r: Option<nat>)
      requires Valid() && t < |pcs| && pcs[t] == Running
      modifies this
      ensures Later(t) && (r.Some? ==> phase.Init? && value == r == init)
    {
      hide Run, Start, Calls, Extends, Step;
      ExtendsOrder<(nat, Choice)>();
      LetOthers(t);
      var done: bool;
      if init.Some? {
        WriteValue(t, init.value);
        ghost var written := trace;
        done := Finish(t, Init);
        if done {
          GotAt(t);
          Remains(written);
          r := value;
        } else {
          r := None;
        }
      } else {
        Abandons(t);
        done := Finish(t, Poison);
        r := None;
      }
    }

    lemma {:induction false} GotAt(t: nat)
      requires Valid() && t < |pcs| && pcs[t].Got?
      ensures phase.Init? && value.Some?
    {
      hide Run, Start, Calls;
      GotIsSet(t);
    }

    /** What was the value some time ago still is. */
    lemma {:induction false} Remains(before: Trace)
      requires Valid() && Extends(before, trace) && Run(Start(tasks), before).value.Some?
      ensures value == Run(Start(tasks), before).value
    {
      hide Run, Start, Calls;
      SettledStays(tasks, before, trace[|before|..]);
      assert before + trace[|before|..] == trace;
    }

    method WriteValue(t: nat, v: nat)
      requires Valid() && t < |pcs| && pcs[t] == Running
      modifies this
      ensures Later(t) && pcs[t] == FinishGuard(Init) && value == Some(v)
    {
      hide Run, Start, Calls, Extends;
      ghost var was := Abs();
      value := Some(v);
      pcs := pcs[t := FinishGuard(Init)];
      Record(was, t, Choice(Yield(v), false));
    }

    method Abandons(t: nat)
      requires Valid() && t < |pcs| && pcs[t] == Running
      modifies this
      ensures Later(t) && pcs[t] == FinishGuard(Poison)
    {
      hide Run, Start, Calls, Extends;
      ghost var was := Abs();
      pcs := pcs[t := FinishGuard(Poison)];
      Record(was, t, Choice(Abandon, false));
    }

    /** Publishes the new phase together with taking every waiter, and wakes them all. */
    method Finish(t: nat, new_: Phase) returns (done: bool)
      requires Valid() && t < |pcs| && pcs[t] == FinishGuard(new_) && (new_.Init? || new_.Poison?)
      modifies this
      ensures Later(t) && (done ==> if new_.Init? then pcs[t].Got? else pcs[t] == Idle)
    {
      hide Run, Start, Calls, Extends, Step;
      ExtendsOrder<(nat, Choice)>();
      var locked := LockWaiters(t, new_);
      if !locked {
        return false;
      }
      var snap := LockQueue(t, new_);
      var list: seq<Waiter> := [];
      done := false;
      var patience: nat := *;
      while !done && patience > 0
        invariant Later(t) && pcs[t] == if done then FinishWake(new_, list) else FinishTake(new_, snap)
      {
        LetOthers(t);
        done, snap, list := AttemptTake(t, new_, snap);
        patience := patience - 1;
      }
      if done {
        WakeAll(t, new_, list);
        Leave(t, new_);
      }
    }

    method LockWaiters(t: nat, new_: Phase) returns (locked: bool)
      requires Valid() && t < |pcs| && pcs[t] == FinishGuard(new_)
      modifies this
      ensures Later(t) && (locked ==> pcs[t] == FinishBorrow(new_))
    {
      hide Run, Start, Calls, Extends, Step;
      ExtendsOrder<(nat, Choice)>();
      locked := false;
      var patience: nat := *;
      while !locked && patience > 0
        invariant Later(t) && pcs[t] == if locked then FinishBorrow(new_) else FinishGuard(new_)
      {
        LetOthers(t);
        locked := TryShare(t, new_);
        patience := patience - 1;
      }
    }

    method TryShare(t: nat, new_: Phase) returns (ok: bool)
      requires Valid() && t < |pcs| && pcs[t] == FinishGuard(new_)
      modifies this
      ensures Later(t) && pcs[t] == if ok then FinishBorrow(new_) else FinishGuard(new_)
    {
      hide Run, Start, Calls, Extends;
      ExtendsOrder<(nat, Choice)>();
      ok := !futex.exclusive;
      if ok {
        ghost var was := Abs();
        futex := Share(futex);
        pcs := pcs[t := FinishBorrow(new_)];
        Record(was, t, Choice(Op.GetOrInit, false));
      }
    }

    /** The borrow asserts that nobody else has it. */
    method LockQueue(t: nat, new_: Phase) returns (snap: Snap<Phase>)
      requires Valid() && t < |pcs| && pcs[t] == FinishBorrow(new_)
      modifies this
      ensures Later(t) && pcs[t] == FinishTake(new_, snap)
    {
      hide Run, Start, Calls, Extends;
      ExtendsOrder<(nat, Choice)>();
      LetOthers(t);
      Safe(t, Choice(Op.GetOrInit, false));
      assert !futex.borrowed;
      ghost var was := Abs();
      snap := Load();
      futex := TakeBorrow(futex);
      pcs := pcs[t := FinishTake(new_, snap)];
      Record(was, t, Choice(Op.GetOrInit, false));
    }

    method AttemptTake(t: nat, new_: Phase, snap: Snap<Phase>) returns (ok: bool, seen: Snap<Phase>, list: seq<Waiter>)
      requires Valid() && t < |pcs| && pcs[t] == FinishTake(new_, snap)
      modifies this
      ensures Later(t) && pcs[t] == if ok then FinishWake(new_, list) else FinishTake(new_, seen)
    {
      hide Run, Start, Calls, Extends, Enqueue;
      var spurious: bool := *;
      Safe(t, Choice(Op.GetOrInit, spurious));
      assert snap.word.Active?;
      ghost var was := Abs();
      list := [];
      ok, seen, phase, futex := CmpxchgEnqueueWeak(Load(), futex, snap, new_, spurious);
      if ok {
        list := Front(futex);
        if list != [] {
          futex := Pop(futex, 0, |list|);
        }
      }
      pcs := pcs[t := if ok then FinishWake(new_, list) else FinishTake(new_, seen)];
      Record(was, t, Choice(Op.GetOrInit, spurious));
    }

    method WakeAll(t: nat, new_: Phase, list: seq<Waiter>)
      requires Valid() && t < |pcs| && pcs[t] == FinishWake(new_, list)
      modifies this
      ensures Later(t) && pcs[t] == FinishLeave(new_)
    {
      hide Run, Start, Calls, Extends, Step;
      ExtendsOrder<(nat, Choice)>();
      var i := 0;
      while i < |list|
        invariant 0 <= i <= |list| && Later(t) && pcs[t] == FinishWake(new_, list[i..])
      {
        WakeOne(t, new_, list[i..]);
        assert list[i..][1..] == list[i + 1..];
        i := i + 1;
      }
      UnlockQueue(t, new_);
    }

    /** Swaps the waiter's slot, which asserts that it is waiting. */
    method WakeOne(t: nat, new_: Phase, list: seq<Waiter>)
      requires Valid() && t < |pcs| && pcs[t] == FinishWake(new_, list) && list != []
      modifies this
      ensures Later(t) && pcs[t] == FinishWake(new_, list[1..])
    {
      hide Run, Start, Calls, Extends;
      ExtendsOrder<(nat, Choice)>();
      LetOthers(t);
      Safe(t, Choice(Op.GetOrInit, false));
      var k := list[0].task;
      assert k < |pcs| && k != t && Woken(pcs[k]).Some?;
      ghost var was := Abs();
      pcs := pcs[t := FinishWake(new_, list[1..])][k := Woken(pcs[k]).value];
      Record(was, t, Choice(Op.GetOrInit, false));
    }

    method UnlockQueue(t: nat, new_: Phase)
      requires Valid() && t < |pcs| && pcs[t] == FinishWake(new_, [])
      modifies this
      ensures Later(t) && pcs[t] == FinishLeave(new_)
    {
      hide Run, Start, Calls, Extends;
      ExtendsOrder<(nat, Choice)>();
      LetOthers(t);
      ghost var was := Abs();
      futex := DropBorrow(futex);
      pcs := pcs[t := FinishLeave(new_)];
      Record(was, t, Choice(Op.GetOrInit, false));
    }

    /** Drops the guard; whoever initialized reads its own value. */
    method Leave(t: nat, new_: Phase)
      requires Valid() && t < |pcs| && pcs[t] == FinishLeave(new_)
      modifies this
      ensures Later(t) && if new_.Init? then pcs[t].Got? else pcs[t] == Idle
    {
      hide Run, Start, Calls, Extends;
      ExtendsOrder<(nat, Choice)>();
      LetOthers(t);
      Safe(t, Choice(Op.GetOrInit, false));
      assert new_.Init? ==> value.Some?;
      ghost var was := Abs();
      futex := Unshare(futex);
      pcs := pcs[t := if new_.Init? then Got(value.value) else Idle];
      Record(was, t, Choice(Op.GetOrInit, false));
    }
  }

  lemma {:induction false} StepKeepsTasks(s: State, t: nat, c: Choice)
    requires t < |s.pcs|
    ensures |Step(s, t, c).pcs| == |s.pcs|
  {
  }

  /** Whoever becomes the initializer does so itself. */
  lemma {:induction false} Initializes(s: State, u: nat, c: Choice)
    requires u < |s.pcs|
    ensures Step(s, u, c).initializer == s.initializer || Step(s, u, c).initializer == Some(u)
  {
  }

  lemma {:induction false} CallMoves(s: State, u: nat, c: Choice)
    requires u < |s.pcs|
    requires s.pcs[u].Idle? || s.pcs[u].Look? || s.pcs[u].Parked? || s.pcs[u].Running? || s.pcs[u].Got?
             || s.pcs[u].Panicked?
    ensures |Step(s, u, c).pcs| == |s.pcs| && Step(s, u, c).pcs == s.pcs[u := Step(s, u, c).pcs[u]]
  {
  }

  lemma {:induction false} FinishMoves(s: State, u: nat, c: Choice)
    requires u < |s.pcs|
    requires s.pcs[u].FinishGuard? || s.pcs[u].FinishBorrow? || s.pcs[u].FinishTake? || s.pcs[u].FinishLeave?
    ensures |Step(s, u, c).pcs| == |s.pcs| && Step(s, u, c).pcs == s.pcs[u := Step(s, u, c).pcs[u]]
  {
  }

  lemma {:induction false} CancelMoves(s: State, u: nat, c: Choice)
    requires u < |s.pcs|
    requires s.pcs[u].CancelWait? || s.pcs[u].CancelLocked? || s.pcs[u].CancelFlip? || s.pcs[u].Crashed?
    ensures |Step(s, u, c).pcs| == |s.pcs| && Step(s, u, c).pcs == s.pcs[u := Step(s, u, c).pcs[u]]
  {
  }

  lemma {:induction false} WakeMoves(s: State, u: nat, phase: Phase, list: seq<Waiter>, t: nat)
    requires u < |s.pcs| && t < |s.pcs| && t != u
    ensures var s' := StepFinishWake(s, u, phase, list);
            |s'.pcs| == |s.pcs| && (s'.pcs[t] == s.pcs[t] || Woken(s.pcs[t]) == Some(s'.pcs[t]))
  {
  }

  /** A step of another task moves this one at most by waking it. */
  lemma {:induction false} StepOfOther(s: State, u: nat, c: Choice, t: nat)
    requires u < |s.pcs| && t < |s.pcs| && u != t
    ensures var s' := Step(s, u, c);
            |s'.pcs| == |s.pcs| && (s'.pcs[t] == s.pcs[t] || Woken(s.pcs[t]) == Some(s'.pcs[t]))
  {
    match s.pcs[u]
    case FinishWake(phase, list) =>
      hide StepFinishWake;
      WakeMoves(s, u, phase, list, t);
    case FinishGuard(_) | FinishBorrow(_) | FinishTake(_, _) | FinishLeave(_) =>
      hide Step;
      FinishMoves(s, u, c);
    case CancelWait(_) | CancelLocked(_) | CancelFlip(_, _) | Crashed =>
      hide Step;
      CancelMoves(s, u, c);
    case _ =>
      hide Step;
      CallMoves(s, u, c);
  }
}
