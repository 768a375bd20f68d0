/** The once-cell as a transition system.

  One step of a task is one access to shared memory, as in RwLock. The value slot is
  written by the one task that has made the cell Active, in the step that begins to
  finish; nobody else touches it until the cell is Init.
 */
module OnceCell {
  import opened Futex
  import opened Options

  datatype Phase = Uninit | Active | Poison | Init

  /** used: the waiter of this call has been woken once, so it must not wait again.
    woken: the waker slot of the waiter is Done. */
  datatype Pc =
    | Idle
    // get_or_init()
    | Look(snap: Snap<Phase>, used: bool)
    | Parked(woken: bool)
    | Running
    | Got(value: nat)
    | Panicked
    // finish()
    | FinishGuard(phase: Phase)
    | FinishBorrow(phase: Phase)
    | FinishTake(phase: Phase, snap: Snap<Phase>)
    | FinishWake(phase: Phase, list: seq<Waiter>)
    | FinishLeave(phase: Phase)
    // dropping a wait future
    | CancelWait(woken: bool)
    | CancelLocked(woken: bool)
    | CancelFlip(woken: bool, snap: Snap<Phase>)
    // an assertion, unwrap or panic of the futex has been reached
    | Crashed

  /** initializer is a history: the task that made the cell Active. */
  datatype State = State(phase: Phase, value: Option<nat>, futex: Futex, pcs: seq<Pc>, initializer: Option<nat>)

  /** What a call does next: get() only looks; an initializer yields a value or is
    dropped, by a panic or otherwise; a parked call may be dropped. */
  datatype Op = Get | GetOrInit | Yield(value: nat) | Abandon

  datatype Choice = Choice(op: Op, spurious: bool)

  function Start(tasks: nat): State
  {
    State(Uninit, None, New(1), seq(tasks, _ => Idle), None)
  }

  function Current(s: State): Snap<Phase>
  {
    Snap(s.phase, Top(s.futex))
  }

  predicate Swaps(s: State, snap: Snap<Phase>, c: Choice)
  {
    !c.spurious && snap == Current(s)
  }

  function Goto(s: State, t: nat, pc: Pc): State
    requires t < |s.pcs|
  {
    s.(pcs := s.pcs[t := pc])
  }

  /** Reading the value slot of a cell that says Init. */
  function Read(s: State, t: nat): State
    requires t < |s.pcs|
  {
    Goto(s, t, if s.value.Some? then Got(s.value.value) else Crashed)
  }

  function StepGet(s: State, t: nat): State
    requires t < |s.pcs|
  {
    match s.phase
    case Uninit | Active => s
    case Poison => Goto(s, t, Panicked)
    case Init => Read(s, t)
  }

  function StepLook(s: State, t: nat, c: Choice, snap: Snap<Phase>, used: bool): State
    requires t < |s.pcs|
  {
    match snap.word
    case Uninit =>
      if Swaps(s, snap, c) then Goto(s, t, Running).(phase := Active, initializer := Some(t))
      else Goto(s, t, Look(Current(s), used))
    case Active =>
      if used then Goto(s, t, Crashed)
      else if Swaps(s, snap, c) then Goto(s, t, Parked(false)).(futex := Push(s.futex, Waiter(t, 0)))
      else Goto(s, t, Look(Current(s), used))
    case Poison => Goto(s, t, Panicked)
    case Init => Read(s, t)
  }

  /** The new phase is published together with taking every waiter. */
  function StepFinishTake(s: State, t: nat, c: Choice, phase: Phase, snap: Snap<Phase>): State
    requires t < |s.pcs|
  {
    if !snap.word.Active? then Goto(s, t, Crashed)
    else if !Swaps(s, snap, c) then Goto(s, t, FinishTake(phase, Current(s)))
    else
      var e := Enqueue(s.futex);
      var list := Front(e);
      Goto(s, t, FinishWake(phase, list)).(phase := phase, futex := if list == [] then e else Pop(e, 0, |list|))
  }

  function Woken(pc: Pc): Option<Pc>
  {
    match pc
    case Parked(false) => Some(Parked(true))
    case CancelWait(false) => Some(CancelWait(true))
    case CancelLocked(false) => Some(CancelLocked(true))
    case CancelFlip(false, snap) => Some(CancelFlip(true, snap))
    case _ => None
  }

  function StepFinishWake(s: State, t: nat, phase: Phase, list: seq<Waiter>): State
    requires t < |s.pcs|
  {
    if list == [] then Goto(s, t, FinishLeave(phase)).(futex := DropBorrow(s.futex))
    else
      var k := list[0].task;
      if k < |s.pcs| && k != t && Woken(s.pcs[k]).Some? then
        Goto(Goto(s, t, FinishWake(phase, list[1..])), k, Woken(s.pcs[k]).value)
      else Goto(s, t, Crashed)
  }

  function StepCancelFlip(s: State, t: nat, c: Choice, woken: bool, snap: Snap<Phase>): State
    requires t < |s.pcs|
  {
    if snap.inbox.None? then Goto(s, t, Idle).(futex := Include(Unlink(s.futex, Waiter(t, 0))))
    else if Swaps(s, snap, c) then Goto(s, t, Idle).(futex := Include(Unlink(Enqueue(s.futex), Waiter(t, 0))))
    else Goto(s, t, CancelFlip(woken, Current(s)))
  }

  /** One step of task t. A step that is not enabled leaves the state as it is. */
  function Step(s: State, t: nat, c: Choice): State
    requires t < |s.pcs|
  {
    match s.pcs[t]
    case Idle =>
      if c.op.Get? then StepGet(s, t) else if c.op.GetOrInit? then Goto(s, t, Look(Current(s), false)) else s
    case Look(snap, used) => StepLook(s, t, c, snap, used)
    case Parked(woken) =>
      if c.op.Abandon? then Goto(s, t, CancelWait(woken))
      else if woken then Goto(s, t, Look(Current(s), true)) else s
    case Running =>
      if c.op.Yield? then Goto(s, t, FinishGuard(Init)).(value := Some(c.op.value))
      else if c.op.Abandon? then Goto(s, t, FinishGuard(Poison)) else s
    case Got(_) => Goto(s, t, Idle)
    case Panicked => s
    case FinishGuard(phase) =>
      if s.futex.exclusive then s else Goto(s, t, FinishBorrow(phase)).(futex := Share(s.futex))
    case FinishBorrow(phase) =>
      if s.futex.borrowed then Goto(s, t, Crashed)
      else Goto(s, t, FinishTake(phase, Current(s))).(futex := TakeBorrow(s.futex))
    case FinishTake(phase, snap) => StepFinishTake(s, t, c, phase, snap)
    case FinishWake(phase, list) => StepFinishWake(s, t, phase, list)
    case FinishLeave(phase) =>
      (var s' := s.(futex := Unshare(s.futex));
       if phase.Init? then Read(s', t) else Goto(s', t, Idle))
    case CancelWait(woken) =>
      if s.futex.exclusive || s.futex.guards > 0 then s
      else Goto(s, t, CancelLocked(woken)).(futex := Exclude(s.futex))
    case CancelLocked(woken) => Goto(s, t, CancelFlip(woken, Current(s)))
    case CancelFlip(woken, snap) => StepCancelFlip(s, t, c, woken, snap)
    case Crashed => s
  }

  /** A run: any interleaving of any tasks with any choices. */
  function Run(s: State, schedule: seq<(nat, Choice)>): State
    decreases |schedule|
  {
    if schedule == [] then s
    else
      var last := |schedule| - 1;
      var p := Run(s, schedule[..last]);
      var (t, c) := schedule[last];
      if t < |p.pcs| then Step(p, t, c) else p
  }
}
