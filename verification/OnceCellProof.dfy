/** One initializer, a value before Init, and nobody left waiting: the invariant of the
  once-cell, kept by every step of every task.
 */
module OnceCellProof {
  import opened Counting
  import opened Futex
  import opened FutexLaws
  import opened OnceCell
  import opened Options

  // ----- what a task holds -----

  /** The task that made the cell Active, until it publishes the outcome. */
  predicate Initializing(pc: Pc)
  {
    pc.Running? || pc.FinishGuard? || pc.FinishBorrow? || pc.FinishTake?
  }

  predicate Finishing(pc: Pc)
  {
    pc.FinishWake? || pc.FinishLeave?
  }

  function PartOf(pc: Pc): Part
  {
    match pc
    case Parked(woken) => OUTSIDE.(waits := Asleep(woken))
    case CancelWait(woken) => OUTSIDE.(waits := Asleep(woken))
    case CancelLocked(woken) => OUTSIDE.(waits := Asleep(woken), exclusive := 1)
    case CancelFlip(woken, snap) => OUTSIDE.(waits := Asleep(woken), exclusive := 1, away := snap.inbox.None?)
    case FinishBorrow(_) => OUTSIDE.(guard := 1)
    case FinishTake(_, _) => OUTSIDE.(guard := 1, borrow := 1)
    case FinishWake(_, list) => OUTSIDE.(guard := 1, borrow := 1, hand := list)
    case FinishLeave(_) => OUTSIDE.(guard := 1)
    case _ => OUTSIDE
  }

  function Asleep(woken: bool): Option<nat>
  {
    if woken then None else Some(0)
  }

  function Parts(pcs: seq<Pc>): seq<Part>
  {
    Map(pcs, PartOf)
  }

  lemma {:induction false} PartsUpdate(pcs: seq<Pc>, t: nat, pc: Pc)
    requires t < |pcs|
    ensures Parts(pcs[t := pc]) == Parts(pcs)[t := PartOf(pc)] && |Parts(pcs)| == |pcs| &&
        Parts(pcs)[t] == PartOf(pcs[t])
  {
    MapUpdate(pcs, PartOf, t, pc);
  }

  // ----- the invariant -----

  ghost predicate Law(f: Futex, pcs: seq<Pc>)
  {
    Lawful(f, Parts(pcs)) && |f.queues| == 1
  }

  predicate Settled(phase: Phase)
  {
    phase.Init? || phase.Poison?
  }

  /** The cell is Active exactly while its one initializer has not published. */
  predicate Phases(phase: Phase, initializer: Option<nat>, pcs: seq<Pc>)
  {
    && (phase.Uninit? <==> initializer.None?)
    && (phase.Active? ==> initializer.Some? && initializer.value < |pcs| && Initializing(pcs[initializer.value]))
    && forall i :: 0 <= i < |pcs| ==> PhaseOk(phase, initializer, i, pcs[i])
  }

  predicate PhaseOk(phase: Phase, initializer: Option<nat>, i: nat, pc: Pc)
  {
    && (Initializing(pc) ==> initializer == Some(i) && phase.Active?)
    && (Finishing(pc) ==> initializer == Some(i) && Settled(phase))
  }

  predicate PcOk(phase: Phase, value: Option<nat>, pc: Pc)
  {
    match pc
    case Look(snap, used) =>
      && (used ==> Settled(snap.word)) && (Settled(snap.word) ==> phase == snap.word)
    case Parked(woken) => woken ==> Settled(phase)
    case CancelWait(woken) => woken ==> Settled(phase)
    case CancelLocked(woken) => woken ==> Settled(phase)
    case CancelFlip(woken, _) => woken ==> Settled(phase)
    case Running => value.None?
    case FinishGuard(p) => Settled(p) && (p.Init? ==> value.Some?)
    case FinishBorrow(p) => Settled(p) && (p.Init? ==> value.Some?)
    case FinishTake(p, snap) => Settled(p) && (p.Init? ==> value.Some?) && snap.word.Active?
    case FinishWake(p, _) => phase == p && Settled(p)
    case FinishLeave(p) => phase == p && Settled(p)
    case Got(v) => phase.Init? && value == Some(v)
    case Panicked => phase.Poison?
    case Crashed => false
    case _ => true
  }

  predicate Local(phase: Phase, value: Option<nat>, pcs: seq<Pc>)
  {
    forall i :: 0 <= i < |pcs| ==> PcOk(phase, value, pcs[i])
  }

  /** Waiters are listed only while the cell is Active; an initialized cell has a value. */
  predicate Calm(phase: Phase, value: Option<nat>, f: Futex)
  {
    && (!phase.Active? ==> f.inbox == [] && Front(f) == [])
    && (phase.Init? ==> value.Some?)
    && (phase.Uninit? ==> value.None?)
  }

  ghost predicate Inv(s: State)
  {
    && Law(s.futex, s.pcs)
    && Phases(s.phase, s.initializer, s.pcs)
    && Local(s.phase, s.value, s.pcs)
    && Calm(s.phase, s.value, s.futex)
  }

  lemma {:induction false} TaskAt(s: State, t: nat)
    requires Inv(s) && t < |s.pcs|
    ensures PcOk(s.phase, s.value, s.pcs[t]) && PhaseOk(s.phase, s.initializer, t, s.pcs[t])
    ensures Calm(s.phase, s.value, s.futex) && (s.phase.Uninit? <==> s.initializer.None?)
    ensures s.phase.Active? ==> s.initializer.Some?
    ensures s.phase.Active? && s.initializer == Some(t) ==> Initializing(s.pcs[t])
    ensures Law(s.futex, s.pcs)
  {
  }

  // ----- how each part follows a step of one task -----

  lemma {:induction false} PhasesFollow(phase: Phase, initializer: Option<nat>, pcs: seq<Pc>, t: nat,
                                        phase': Phase, initializer': Option<nat>, pc: Pc)
    requires Phases(phase, initializer, pcs) && t < |pcs|
    requires PhaseOk(phase', initializer', t, pc)
    requires || (phase' == phase && initializer' == initializer && (initializer == Some(t) && phase.Active? ==>
        Initializing(pc)))
             || (phase.Uninit? && phase'.Active? && initializer' == Some(t) && Initializing(pc))
             || (phase.Active? && Settled(phase') && initializer' == initializer == Some(t))
    ensures Phases(phase', initializer', pcs[t := pc])
  {
    var pcs' := pcs[t := pc];
    forall i | 0 <= i < |pcs|
      ensures PhaseOk(phase', initializer', i, pcs'[i])
    {
      assert PhaseOk(phase, initializer, i, pcs[i]);
    }
  }

  /** The phase only goes forward and the value is set once, while the cell is Active. */
  predicate Forward(phase: Phase, value: Option<nat>, phase': Phase, value': Option<nat>)
  {
    && (phase' == phase || (phase.Uninit? && phase'.Active?) || (phase.Active? && Settled(phase')))
    && (value' == value || (phase.Active? && phase'.Active? && value.None? && value'.Some?))
  }

  lemma {:induction false} LocalFollows(phase: Phase, value: Option<nat>, pcs: seq<Pc>, t: nat,
                                        phase': Phase, value': Option<nat>, pc: Pc)
    requires Local(phase, value, pcs) && t < |pcs| && Forward(phase, value, phase', value') && PcOk(phase', value', pc)
    requires forall i :: 0 <= i < |pcs| && i != t && pcs[i].Running? ==> value' == value
    ensures Local(phase', value', pcs[t := pc])
  {
    var pcs' := pcs[t := pc];
    forall i | 0 <= i < |pcs|
      ensures PcOk(phase', value', pcs'[i])
    {
      assert PcOk(phase, value, pcs[i]);
    }
  }

  /** Nobody but the initializer runs the initializer. */
  lemma {:induction false} OnlyOneRuns(phase: Phase, initializer: Option<nat>, pcs: seq<Pc>, t: nat)
    requires Phases(phase, initializer, pcs) && initializer == Some(t)
    ensures forall i :: 0 <= i < |pcs| && i != t ==> !pcs[i].Running?
  {
    forall i | 0 <= i < |pcs| && i != t
      ensures !pcs[i].Running?
    {
      assert PhaseOk(phase, initializer, i, pcs[i]);
    }
  }

  /** A step of one task. */
  lemma {:induction false} MoveKeeps(s: State, t: nat, phase: Phase, value: Option<nat>, f: Futex,
          initializer: Option<nat>, pc: Pc)
    requires Inv(s) && t < |s.pcs| && Law(f, s.pcs[t := pc]) && Calm(phase, value, f)
    requires PhaseOk(phase, initializer, t, pc) && PcOk(phase, value, pc) && Forward(s.phase, s.value, phase, value)
    requires || (phase == s.phase && initializer == s.initializer
                 && (initializer == Some(t) && s.phase.Active? ==> Initializing(pc)))
             || (s.phase.Uninit? && phase.Active? && initializer == Some(t) && Initializing(pc))
             || (s.phase.Active? && Settled(phase) && initializer == s.initializer == Some(t))
    requires value == s.value || s.initializer == Some(t)
    ensures Inv(State(phase, value, f, s.pcs[t := pc], initializer))
  {
    hide Law, Phases, Local, PhaseOk, PcOk, Calm, Forward, Initializing, Settled;
    if value != s.value {
      OnlyOneRuns(s.phase, s.initializer, s.pcs, t);
    }
    PhasesFollow(s.phase, s.initializer, s.pcs, t, phase, initializer, pc);
    LocalFollows(s.phase, s.value, s.pcs, t, phase, value, pc);
  }

  lemma {:induction false} StayLawful(f: Futex, pcs: seq<Pc>, t: nat, pc: Pc)
    requires Law(f, pcs) && t < |pcs| && PartOf(pc) == PartOf(pcs[t]).(away := PartOf(pc).away)
    requires PartOf(pc).away ==> f.inbox == []
    ensures Law(f, pcs[t := pc])
  {
    hide Lawful, PartOf;
    PartsUpdate(pcs, t, pc);
    StayLaw(f, Parts(pcs), t, PartOf(pc));
  }

  /** Turning to another program point, with nothing shared changed. */
  lemma {:induction false} TurnKeeps(s: State, t: nat, pc: Pc)
    requires Inv(s) && t < |s.pcs| && PcOk(s.phase, s.value, pc) && PhaseOk(s.phase, s.initializer, t, pc)
    requires s.initializer == Some(t) && s.phase.Active? ==> Initializing(pc)
    requires PartOf(pc) == PartOf(s.pcs[t]).(away := PartOf(pc).away)
    requires PartOf(pc).away ==> s.futex.inbox == []
    ensures Inv(Goto(s, t, pc))
  {
    hide Inv, Law, PartOf, PcOk, PhaseOk, Initializing;
    TaskAt(s, t);
    StayLawful(s.futex, s.pcs, t, pc);
    MoveKeeps(s, t, s.phase, s.value, s.futex, s.initializer, pc);
  }

  // ----- get and get_or_init -----

  lemma {:induction false} ReadKeeps(s: State, t: nat)
    requires Inv(s) && t < |s.pcs| && s.phase.Init? && PartOf(s.pcs[t]) == OUTSIDE
    ensures s.value.Some? && Inv(Read(s, t))
  {
    hide Inv, Law;
    TaskAt(s, t);
    TurnKeeps(s, t, Got(s.value.value));
  }

  lemma {:induction false} GetKeeps(s: State, t: nat)
    requires Inv(s) && t < |s.pcs| && s.pcs[t].Idle?
    ensures Inv(StepGet(s, t))
  {
    hide Inv, Law, Read;
    TaskAt(s, t);
    if s.phase.Poison? {
      TurnKeeps(s, t, Panicked);
    } else if s.phase.Init? {
      ReadKeeps(s, t);
    }
  }

  lemma {:induction false} ParkLawful(f: Futex, pcs: seq<Pc>, t: nat)
    requires Law(f, pcs) && t < |pcs| && pcs[t].Look?
    ensures Law(Push(f, Waiter(t, 0)), pcs[t := Parked(false)])
  {
    PartsUpdate(pcs, t, Parked(false));
    ParkLaw(f, Parts(pcs), t, 0, PartOf(Parked(false)));
    hide Lawful;
  }

  lemma {:induction false} LookKeeps(s: State, t: nat, c: Choice, snap: Snap<Phase>, used: bool)
    requires Inv(s) && t < |s.pcs| && s.pcs[t] == Look(snap, used)
    ensures Inv(StepLook(s, t, c, snap, used))
  {
    hide Inv, Law, Read;
    TaskAt(s, t);
    if snap.word.Poison? {
      TurnKeeps(s, t, Panicked);
    } else if snap.word.Init? {
      ReadKeeps(s, t);
    } else if !Swaps(s, snap, c) {
      TurnKeeps(s, t, Look(Current(s), used));
    } else if snap.word.Uninit? {
      StayLawful(s.futex, s.pcs, t, Running);
      MoveKeeps(s, t, Active, s.value, s.futex, Some(t), Running);
    } else {
      ParkLawful(s.futex, s.pcs, t);
      MoveKeeps(s, t, s.phase, s.value, Push(s.futex, Waiter(t, 0)), s.initializer, Parked(false));
    }
  }

  // ----- finish -----

  /** The outcome is decided: the value is in its slot before anything is published. */
  lemma {:induction false} RunningKeeps(s: State, t: nat, phase: Phase, value: Option<nat>)
    requires Inv(s) && t < |s.pcs| && s.pcs[t].Running? && Settled(phase)
    requires (phase.Init? && value.Some?) || (phase.Poison? && value == s.value)
    ensures Inv(Goto(s, t, FinishGuard(phase)).(value := value))
  {
    hide Inv, Law;
    TaskAt(s, t);
    StayLawful(s.futex, s.pcs, t, FinishGuard(phase));
    MoveKeeps(s, t, s.phase, value, s.futex, s.initializer, FinishGuard(phase));
  }

  lemma {:induction false} ShareLawful(f: Futex, pcs: seq<Pc>, t: nat, phase: Phase)
    requires Law(f, pcs) && t < |pcs| && pcs[t] == FinishGuard(phase) && !f.exclusive
    ensures Law(Share(f), pcs[t := FinishBorrow(phase)])
  {
    hide Lawful;
    PartsUpdate(pcs, t, FinishBorrow(phase));
    ShareLaw(f, Parts(pcs), t);
  }

  lemma {:induction false} NobodyBorrows(s: State, t: nat)
    requires Inv(s) && t < |s.pcs| && s.pcs[t].FinishBorrow?
    ensures forall i :: 0 <= i < |s.pcs| ==> Parts(s.pcs)[i].borrow == 0
  {
    hide Law, Lawful;
    TaskAt(s, t);
    forall i | 0 <= i < |s.pcs|
      ensures PartOf(s.pcs[i]).borrow == 0
    {
      TaskAt(s, i);
    }
  }

  lemma {:induction false} BorrowLawful(s: State, t: nat, phase: Phase, snap: Snap<Phase>)
    requires Inv(s) && t < |s.pcs| && s.pcs[t] == FinishBorrow(phase)
    ensures !s.futex.borrowed && Law(TakeBorrow(s.futex), s.pcs[t := FinishTake(phase, snap)])
  {
    hide Lawful;
    NobodyBorrows(s, t);
    PartsUpdate(s.pcs, t, FinishTake(phase, snap));
    TakeBorrowLaw(s.futex, Parts(s.pcs), t);
  }

  lemma {:induction false} TakeLawful(f: Futex, pcs: seq<Pc>, t: nat, phase: Phase)
    requires Law(f, pcs) && t < |pcs| && pcs[t].FinishTake?
    ensures var e := Enqueue(f);
            && Law(Pop(e, 0, |e.queues[0]|), pcs[t := FinishWake(phase, e.queues[0])])
            && Pop(e, 0, |e.queues[0]|).inbox == [] && Front(Pop(e, 0, |e.queues[0]|)) == []
            && (e.queues[0] == [] ==> Pop(e, 0, 0) == e)
  {
    hide Lawful;
    var e := Enqueue(f);
    var list := e.queues[0];
    EnqueueLaw(f, Parts(pcs));
    assert list[..|list|] == list;
    PartsUpdate(pcs, t, FinishWake(phase, list));
    PopLaw(e, Parts(pcs), t, 0, |list|, PartOf(FinishWake(phase, list)));
    if list == [] {
      assert e.queues[0 := list[0..]] == e.queues;
    }
  }

  /** Publishing the outcome takes every waiter there is. */
  lemma {:induction false} FinishTakes(s: State, t: nat, c: Choice, phase: Phase, snap: Snap<Phase>)
    requires Inv(s) && t < |s.pcs| && s.pcs[t] == FinishTake(phase, snap) && Swaps(s, snap, c)
    ensures Inv(StepFinishTake(s, t, c, phase, snap))
  {
    hide Inv, Law, Enqueue, Pop;
    TaskAt(s, t);
    TakeFront(s);
    TakeLawful(s.futex, s.pcs, t, phase);
    var list := Enqueue(s.futex).queues[0];
    MoveKeeps(s, t, phase, s.value, Pop(Enqueue(s.futex), 0, |list|), s.initializer, FinishWake(phase, list));
  }

  lemma {:induction false} TakeFront(s: State)
    requires Inv(s)
    ensures |Enqueue(s.futex).queues| == 1
  {
  }

  lemma {:induction false} WokenFacts(phase: Phase, value: Option<nat>, initializer: Option<nat>, i: nat, pc: Pc)
    requires PartOf(pc).waits.Some? && PcOk(phase, value, pc) && Settled(phase)
    ensures Woken(pc).Some?
    ensures var awake := Woken(pc).value;
            PartOf(awake) == PartOf(pc).(waits := None) && PcOk(phase, value, awake) &&
                PhaseOk(phase, initializer, i, awake)
  {
  }

  lemma {:induction false} WakeLawful(f: Futex, pcs: seq<Pc>, t: nat, phase: Phase, list: seq<Waiter>, awake: Pc)
    requires Law(f, pcs) && t < |pcs| && pcs[t] == FinishWake(phase, list) && list != []
    requires list[0].task < |pcs| && list[0].task != t
    requires PartOf(awake) == PartOf(pcs[list[0].task]).(waits := None)
    ensures Law(f, pcs[t := FinishWake(phase, list[1..])][list[0].task := awake])
  {
    var next := FinishWake(phase, list[1..]);
    PartsUpdate(pcs, t, next);
    PartsUpdate(pcs[t := next], list[0].task, awake);
    WakeLaw(f, Parts(pcs), t, PartOf(next), PartOf(awake));
    hide Lawful;
  }

  lemma {:induction false} HandAsleep(s: State, t: nat)
    requires Inv(s) && t < |s.pcs| && s.pcs[t].FinishWake? && s.pcs[t].list != []
    ensures var k := s.pcs[t].list[0].task;
            k < |s.pcs| && k != t && PartOf(s.pcs[k]).waits.Some?
  {
    PartsUpdate(s.pcs, t, s.pcs[t]);
    HandSleeps(s.futex, Parts(s.pcs), t);
    assert Parts(s.pcs)[s.pcs[t].list[0].task] == PartOf(s.pcs[s.pcs[t].list[0].task]);
  }

  lemma {:induction false} WakePhases(phase: Phase, initializer: Option<nat>, pcs: seq<Pc>, t: nat, next: Pc, k: nat,
          awake: Pc)
    requires Phases(phase, initializer, pcs) && t < |pcs| && k < |pcs| && Settled(phase)
    requires PhaseOk(phase, initializer, t, next) && PhaseOk(phase, initializer, k, awake)
    ensures Phases(phase, initializer, pcs[t := next][k := awake])
  {
  }

  lemma {:induction false} WakeLocal(phase: Phase, value: Option<nat>, pcs: seq<Pc>, t: nat, next: Pc, k: nat,
          awake: Pc)
    requires Local(phase, value, pcs) && t < |pcs| && k < |pcs|
    requires PcOk(phase, value, next) && PcOk(phase, value, awake)
    ensures Local(phase, value, pcs[t := next][k := awake])
  {
  }

  lemma {:induction false} WakeOne(s: State, t: nat, phase: Phase, list: seq<Waiter>)
    requires Inv(s) && t < |s.pcs| && s.pcs[t] == FinishWake(phase, list) && list != []
    ensures Inv(StepFinishWake(s, t, phase, list))
  {
    hide Law, Phases, Local, Calm;
    HandAsleep(s, t);
    var k := list[0].task;
    TaskAt(s, t);
    TaskAt(s, k);
    WokenFacts(s.phase, s.value, s.initializer, k, s.pcs[k]);
    var next, awake := FinishWake(phase, list[1..]), Woken(s.pcs[k]).value;
    WakeLawful(s.futex, s.pcs, t, phase, list, awake);
    WakePhases(s.phase, s.initializer, s.pcs, t, next, k, awake);
    WakeLocal(s.phase, s.value, s.pcs, t, next, k, awake);
  }

  lemma {:induction false} DropLawful(f: Futex, pcs: seq<Pc>, t: nat, phase: Phase)
    requires Law(f, pcs) && t < |pcs| && pcs[t] == FinishWake(phase, [])
    ensures Law(DropBorrow(f), pcs[t := FinishLeave(phase)])
  {
    hide Lawful;
    PartsUpdate(pcs, t, FinishLeave(phase));
    DropBorrowLaw(f, Parts(pcs), t);
  }

  lemma {:induction false} LeaveLawful(f: Futex, pcs: seq<Pc>, t: nat, next: Pc)
    requires Law(f, pcs) && t < |pcs| && pcs[t].FinishLeave? && PartOf(next) == OUTSIDE
    ensures Law(Unshare(f), pcs[t := next])
  {
    hide Lawful;
    PartsUpdate(pcs, t, next);
    UnshareLaw(f, Parts(pcs), t);
  }

  lemma {:induction false} SameCalm(phase: Phase, value: Option<nat>, f: Futex, g: Futex)
    requires Calm(phase, value, f) && g.inbox == f.inbox && g.queues == f.queues
    ensures Calm(phase, value, g)
  {
  }

  lemma {:induction false} FinishKeeps(s: State, t: nat, c: Choice)
    requires Inv(s) && t < |s.pcs| && (s.pcs[t].FinishGuard? || s.pcs[t].FinishBorrow? || s.pcs[t].FinishTake?)
    ensures Inv(Step(s, t, c))
  {
    hide Inv, Law, Calm;
    TaskAt(s, t);
    match s.pcs[t]
    case FinishGuard(phase) =>
      if !s.futex.exclusive {
        ShareLawful(s.futex, s.pcs, t, phase);
        SameCalm(s.phase, s.value, s.futex, Share(s.futex));
        MoveKeeps(s, t, s.phase, s.value, Share(s.futex), s.initializer, FinishBorrow(phase));
      }
    case FinishBorrow(phase) =>
      BorrowLawful(s, t, phase, Current(s));
      SameCalm(s.phase, s.value, s.futex, TakeBorrow(s.futex));
      MoveKeeps(s, t, s.phase, s.value, TakeBorrow(s.futex), s.initializer, FinishTake(phase, Current(s)));
    case FinishTake(phase, snap) =>
      if Swaps(s, snap, c) {
        FinishTakes(s, t, c, phase, snap);
      } else {
        TurnKeeps(s, t, FinishTake(phase, Current(s)));
      }
  }

  lemma {:induction false} FinishEnds(s: State, t: nat, c: Choice)
    requires Inv(s) && t < |s.pcs| && Finishing(s.pcs[t])
    ensures Inv(Step(s, t, c))
  {
    hide Inv, Law;
    TaskAt(s, t);
    match s.pcs[t]
    case FinishWake(phase, list) =>
      if list == [] {
        DropLawful(s.futex, s.pcs, t, phase);
        MoveKeeps(s, t, s.phase, s.value, DropBorrow(s.futex), s.initializer, FinishLeave(phase));
      } else {
        WakeOne(s, t, phase, list);
      }
    case FinishLeave(phase) =>
      var next := if phase.Init? then Got(s.value.value) else Idle;
      LeaveLawful(s.futex, s.pcs, t, next);
      MoveKeeps(s, t, s.phase, s.value, Unshare(s.futex), s.initializer, next);
  }

  // ----- dropping a wait future -----

  lemma {:induction false} ExcludeLawful(f: Futex, pcs: seq<Pc>, t: nat, woken: bool)
    requires Law(f, pcs) && t < |pcs| && pcs[t] == CancelWait(woken) && !f.exclusive && f.guards == 0
    ensures Law(Exclude(f), pcs[t := CancelLocked(woken)])
  {
    hide Lawful;
    PartsUpdate(pcs, t, CancelLocked(woken));
    ExcludeLaw(f, Parts(pcs), t);
  }

  lemma {:induction false} UnlinkLawful(f: Futex, g: Futex, pcs: seq<Pc>, t: nat, woken: bool, snap: Snap<Phase>)
    requires Law(f, pcs) && t < |pcs| && pcs[t] == CancelFlip(woken, snap)
    requires g == Enqueue(f) || (g == f && snap.inbox.None?)
    ensures Law(Include(Unlink(g, Waiter(t, 0))), pcs[t := Idle])
  {
    hide Lawful;
    EnqueueLaw(f, Parts(pcs));
    PartsUpdate(pcs, t, Idle);
    UnlinkLaw(g, Include(Unlink(g, Waiter(t, 0))), Parts(pcs), t, 0, PartOf(Idle));
  }

  lemma {:induction false} UnlinkCalm(phase: Phase, value: Option<nat>, f: Futex, g: Futex, t: nat)
    requires Calm(phase, value, f) && (g == Enqueue(f) || g == f)
    ensures Calm(phase, value, Include(Unlink(g, Waiter(t, 0))))
  {
  }

  lemma {:induction false} UnlinkKeeps(s: State, t: nat, g: Futex, woken: bool, snap: Snap<Phase>)
    requires Inv(s) && t < |s.pcs| && s.pcs[t] == CancelFlip(woken, snap)
    requires g == Enqueue(s.futex) || (g == s.futex && snap.inbox.None?)
    ensures Inv(Goto(s, t, Idle).(futex := Include(Unlink(g, Waiter(t, 0)))))
  {
    hide Inv, Law, Calm, Unlink, Enqueue;
    TaskAt(s, t);
    UnlinkLawful(s.futex, g, s.pcs, t, woken, snap);
    UnlinkCalm(s.phase, s.value, s.futex, g, t);
    MoveKeeps(s, t, s.phase, s.value, Include(Unlink(g, Waiter(t, 0))), s.initializer, Idle);
  }

  lemma {:induction false} CancelKeeps(s: State, t: nat, c: Choice)
    requires Inv(s) && t < |s.pcs| && (s.pcs[t].CancelWait? || s.pcs[t].CancelLocked? || s.pcs[t].CancelFlip?)
    ensures Inv(Step(s, t, c))
  {
    hide Inv, Law, Unlink, Enqueue;
    TaskAt(s, t);
    match s.pcs[t]
    case CancelWait(woken) =>
      if !s.futex.exclusive && s.futex.guards == 0 {
        ExcludeLawful(s.futex, s.pcs, t, woken);
        MoveKeeps(s, t, s.phase, s.value, Exclude(s.futex), s.initializer, CancelLocked(woken));
      }
    case CancelLocked(woken) => TurnKeeps(s, t, CancelFlip(woken, Current(s)));
    case CancelFlip(woken, snap) =>
      if snap.inbox.None? {
        UnlinkKeeps(s, t, s.futex, woken, snap);
      } else if Swaps(s, snap, c) {
        UnlinkKeeps(s, t, Enqueue(s.futex), woken, snap);
      } else {
        TurnKeeps(s, t, CancelFlip(woken, Current(s)));
      }
  }

  // ----- every step, every run -----

  lemma {:induction false} CallKeeps(s: State, t: nat, c: Choice)
    requires Inv(s) && t < |s.pcs|
    requires var pc := s.pcs[t]; pc.Idle? || pc.Look? || pc.Parked? || pc.Running? || pc.Got?
    ensures Inv(Step(s, t, c))
  {
    hide Inv, Law, StepGet, StepLook;
    TaskAt(s, t);
    match s.pcs[t]
    case Idle =>
      if c.op.Get? {
        GetKeeps(s, t);
      } else if c.op.GetOrInit? {
        TurnKeeps(s, t, Look(Current(s), false));
      }
    case Look(snap, used) => LookKeeps(s, t, c, snap, used);
    case Parked(woken) =>
      if c.op.Abandon? {
        TurnKeeps(s, t, CancelWait(woken));
      } else if woken {
        TurnKeeps(s, t, Look(Current(s), true));
      }
    case Running =>
      if c.op.Yield? {
        RunningKeeps(s, t, Init, Some(c.op.value));
      } else if c.op.Abandon? {
        RunningKeeps(s, t, Poison, s.value);
      }
    case Got(_) => TurnKeeps(s, t, Idle);
  }

  lemma {:induction false} StepKeeps(s: State, t: nat, c: Choice)
    requires Inv(s) && t < |s.pcs|
    ensures Inv(Step(s, t, c))
  {
    hide Inv, Step;
    var pc := s.pcs[t];
    if pc.FinishGuard? || pc.FinishBorrow? || pc.FinishTake? {
      FinishKeeps(s, t, c);
    } else if Finishing(pc) {
      FinishEnds(s, t, c);
    } else if pc.CancelWait? || pc.CancelLocked? || pc.CancelFlip? {
      CancelKeeps(s, t, c);
    } else if pc.Panicked? || pc.Crashed? {
      StuckStays(s, t, c);
    } else {
      CallKeeps(s, t, c);
    }
  }

  lemma {:induction false} StuckStays(s: State, t: nat, c: Choice)
    requires t < |s.pcs| && (s.pcs[t].Panicked? || s.pcs[t].Crashed?)
    ensures Step(s, t, c) == s
  {
  }

  lemma {:induction false} StartKeeps(tasks: nat)
    ensures Inv(Start(tasks))
  {
    NewLaw(1, Parts(Start(tasks).pcs));
    hide Lawful;
  }

  /** Every reachable state, for any number of tasks and any interleaving. */
  lemma {:induction false} RunKeeps(tasks: nat, schedule: seq<(nat, Choice)>)
    ensures Inv(Run(Start(tasks), schedule))
    decreases |schedule|
  {
    hide Inv;
    if schedule == [] {
      StartKeeps(tasks);
    } else {
      var last := |schedule| - 1;
      RunKeeps(tasks, schedule[..last]);
      var p := Run(Start(tasks), schedule[..last]);
      var (t, c) := schedule[last];
      if t < |p.pcs| {
        StepKeeps(p, t, c);
      }
    }
  }

  // ----- what the cell promises -----

  /** The cell only goes Uninit, Active, and then Init or Poison, and its value is set at
    most once, while it is Active. */
  lemma {:induction false} OnlyForward(tasks: nat, schedule: seq<(nat, Choice)>, t: nat, c: Choice)
    requires t < |Run(Start(tasks), schedule).pcs|
    ensures var s := Run(Start(tasks), schedule);
            var s' := Step(s, t, c);
            && Forward(s.phase, s.value, s'.phase, s'.value)
            && (s'.value != s.value ==> s.initializer == Some(t) && s.pcs[t].Running?)
            && (s'.phase.Init? ==> s'.value.Some?)
  {
    hide Run, Start;
    RunKeeps(tasks, schedule);
    var s := Run(Start(tasks), schedule);
    StepKeeps(s, t, c);
    StepForward(s, t, c);
    InitHasValue(Step(s, t, c));
  }

  lemma {:induction false} InitHasValue(s: State)
    requires Inv(s)
    ensures s.phase.Init? ==> s.value.Some?
  {
  }

  lemma {:induction false} StepForward(s: State, t: nat, c: Choice)
    requires Inv(s) && t < |s.pcs|
    ensures var s' := Step(s, t, c);
            && Forward(s.phase, s.value, s'.phase, s'.value)
            && (s'.value != s.value ==> s.initializer == Some(t) && s.pcs[t].Running?)
  {
    hide Inv;
    TaskAt(s, t);
  }

  /** What is settled stays: who initializes, the value, and the outcome. */
  predicate Stays(s: State, s': State)
  {
    && |s'.pcs| == |s.pcs|
    && (s.initializer.Some? ==> s'.initializer == s.initializer)
    && (s.value.Some? ==> s'.value == s.value)
    && (Settled(s.phase) ==> s'.phase == s.phase)
  }

  lemma {:induction false} StepStays(s: State, t: nat, c: Choice)
    requires Inv(s) && t < |s.pcs|
    ensures Stays(s, Step(s, t, c))
  {
    hide Inv;
    TaskAt(s, t);
    StepForward(s, t, c);
  }

  /** However the run goes on, what is settled stays. */
  lemma {:induction false} SettledStays(tasks: nat, schedule: seq<(nat, Choice)>, more: seq<(nat, Choice)>)
    ensures Stays(Run(Start(tasks), schedule), Run(Start(tasks), schedule + more))
    decreases |more|
  {
    hide Step, Inv;
    if more == [] {
      assert schedule + more == schedule;
    } else {
      var last := |more| - 1;
      var before := schedule + more[..last];
      SettledStays(tasks, schedule, more[..last]);
      RunKeeps(tasks, before);
      assert (schedule + more)[..|schedule + more| - 1] == before;
      var (t, c) := more[last];
      var p := Run(Start(tasks), before);
      if t < |p.pcs| {
        StepStays(p, t, c);
      }
    }
  }

  /** Only one task ever initializes: whoever does at some moment of a run is the one who
    does at any later moment. */
  lemma {:induction false} OneInitializer(tasks: nat, schedule: seq<(nat, Choice)>, more: seq<(nat, Choice)>,
        i: nat, j: nat)
    requires var s := Run(Start(tasks), schedule); i < |s.pcs| && (Initializing(s.pcs[i]) || Finishing(s.pcs[i]))
    requires var s' := Run(Start(tasks), schedule + more);
             j < |s'.pcs| && (Initializing(s'.pcs[j]) || Finishing(s'.pcs[j]))
    ensures i == j
  {
    hide Run, Start, Inv;
    RunKeeps(tasks, schedule);
    RunKeeps(tasks, schedule + more);
    SettledStays(tasks, schedule, more);
    TaskAt(Run(Start(tasks), schedule), i);
    TaskAt(Run(Start(tasks), schedule + more), j);
  }

  // ----- the operations a task asks for -----

  /** Between operations a task is idle, has the value or has panicked. */
  predicate BetweenCalls(pc: Pc)
  {
    pc.Idle? || pc.Got? || pc.Panicked?
  }

  /** What the task asked for on its turns between operations, in order. */
  function Calls(tasks: nat, schedule: seq<(nat, Choice)>, t: nat): seq<Op>
    decreases |schedule|
  {
    if schedule == [] then []
    else
      var last := |schedule| - 1;
      var s := Run(Start(tasks), schedule[..last]);
      Calls(tasks, schedule[..last], t)
      + if schedule[last].0 == t && t < |s.pcs| && BetweenCalls(s.pcs[t]) then [schedule[last].1.op] else []
  }

  lemma {:induction false} CallsOne(tasks: nat, schedule: seq<(nat, Choice)>, u: nat, c: Choice, t: nat)
    ensures var s := Run(Start(tasks), schedule);
            Calls(tasks, schedule + [(u, c)], t)
            == Calls(tasks, schedule, t) + if u == t && t < |s.pcs| && BetweenCalls(s.pcs[t]) then [c.op] else []
  {
    hide Run, Start, BetweenCalls;
    assert (schedule + [(u, c)])[..|schedule|] == schedule;
  }

  // ----- what the initializer came to -----

  /** On some turn of the run the task, running the initializer, came to op. */
  predicate Came(tasks: nat, schedule: seq<(nat, Choice)>, t: nat, op: Op)
  {
    exists k :: 0 <= k < |schedule| && CameAt(tasks, schedule, k, t, op)
  }

  predicate CameAt(tasks: nat, schedule: seq<(nat, Choice)>, k: nat, t: nat, op: Op)
    requires k < |schedule|
  {
    var s := Run(Start(tasks), schedule[..k]);
    schedule[k].0 == t && schedule[k].1.op == op && t < |s.pcs| && s.pcs[t].Running?
  }

  lemma {:induction false} CameStays(tasks: nat, schedule: seq<(nat, Choice)>, t: nat, op: Op)
    requires schedule != [] && Came(tasks, schedule[..|schedule| - 1], t, op)
    ensures Came(tasks, schedule, t, op)
  {
    hide Run, Start;
    var before := schedule[..|schedule| - 1];
    var k :| 0 <= k < |before| && CameAt(tasks, before, k, t, op);
    assert before[..k] == schedule[..k];
    assert CameAt(tasks, schedule, k, t, op);
  }

  lemma {:induction false} CameNow(tasks: nat, schedule: seq<(nat, Choice)>, t: nat)
    requires schedule != [] && schedule[|schedule| - 1].0 == t
    requires var p := Run(Start(tasks), schedule[..|schedule| - 1]); t < |p.pcs| && p.pcs[t].Running?
    ensures Came(tasks, schedule, t, schedule[|schedule| - 1].1.op)
  {
    hide Run, Start;
    assert CameAt(tasks, schedule, |schedule| - 1, t, schedule[|schedule| - 1].1.op);
  }

  /** The cell is poisoned, or its initializer is about to publish that. */
  predicate Poisoning(s: State)
  {
    || s.phase.Poison?
    || (s.initializer.Some? && s.initializer.value < |s.pcs| && Publishes(s.pcs[s.initializer.value], Poison))
  }

  predicate Publishes(pc: Pc, phase: Phase)
  {
    (pc.FinishGuard? || pc.FinishBorrow? || pc.FinishTake?) && pc.phase == phase
  }

  lemma {:induction false} PoisoningBegins(s: State, t: nat, c: Choice)
    requires Inv(s) && t < |s.pcs| && !Poisoning(s) && Poisoning(Step(s, t, c))
    ensures s.pcs[t].Running? && c.op.Abandon? && Step(s, t, c).initializer == Some(t)
  {
    hide Inv, Law, Enqueue, Front;
    TaskAt(s, t);
    if s.initializer.Some? && s.initializer.value < |s.pcs| {
      TaskAt(s, s.initializer.value);
    }
  }

  lemma {:induction false} ValueBegins(s: State, t: nat, c: Choice)
    requires Inv(s) && t < |s.pcs| && Step(s, t, c).value != s.value
    ensures s.pcs[t].Running? && c.op.Yield? && Step(s, t, c).value == Some(c.op.value)
    ensures s.initializer == Some(t) && Step(s, t, c).initializer == Some(t)
  {
    hide Inv, Law, Enqueue, Front;
    TaskAt(s, t);
  }

  /** The value of the cell is the one its initializer yielded, and a cell is poisoned only
    if its initializer was dropped. */
  lemma {:induction false} ValueIsYielded(tasks: nat, schedule: seq<(nat, Choice)>)
    ensures var s := Run(Start(tasks), schedule);
            && (s.value.Some? ==>
                  s.initializer.Some? && Came(tasks, schedule, s.initializer.value, Yield(s.value.value)))
            && (Poisoning(s) ==> s.initializer.Some? && Came(tasks, schedule, s.initializer.value, Abandon))
    decreases |schedule|
  {
    hide Step, Start, Inv, Came, Poisoning;
    if schedule == [] {
      StartHasNone(tasks);
    } else {
      var last := |schedule| - 1;
      ValueIsYielded(tasks, schedule[..last]);
      RunKeeps(tasks, schedule[..last]);
      var p := Run(Start(tasks), schedule[..last]);
      var (t, c) := schedule[last];
      if p.value.Some? {
        CameStays(tasks, schedule, p.initializer.value, Yield(p.value.value));
      }
      if Poisoning(p) {
        CameStays(tasks, schedule, p.initializer.value, Abandon);
      }
      if t < |p.pcs| {
        StepStays(p, t, c);
        if Step(p, t, c).value != p.value {
          ValueBegins(p, t, c);
          CameNow(tasks, schedule, t);
        }
        if Poisoning(Step(p, t, c)) && !Poisoning(p) {
          PoisoningBegins(p, t, c);
          CameNow(tasks, schedule, t);
        }
      }
    }
  }

  lemma {:induction false} StartHasNone(tasks: nat)
    ensures Start(tasks).value.None? && !Poisoning(Start(tasks))
  {
  }

  // ----- what a call left alone comes to -----

  const GO := Choice(Op.GetOrInit, false)

  /** Two turns of a task with nobody else in between, the second only if it still loops. */
  function Undisturbed(s: State, t: nat, loops: Pc -> bool): State
    requires t < |s.pcs|
  {
    var s' := Step(s, t, GO);
    if t < |s'.pcs| && loops(s'.pcs[t]) then Step(s', t, GO) else s'
  }

  /** A call that looks at the cell is answered within two turns of its own: it initializes
    the cell if nobody has begun to, waits if somebody does, and otherwise gets the value
    or panics. */
  lemma {:induction false} LookIsAnswered(tasks: nat, schedule: seq<(nat, Choice)>, t: nat)
    requires var s := Run(Start(tasks), schedule); t < |s.pcs| && s.pcs[t].Look?
    ensures var s := Run(Start(tasks), schedule);
            var s' := Undisturbed(s, t, (pc: Pc) => pc.Look?);
            && t < |s'.pcs|
            && (s.initializer.None? ==> s'.pcs[t].Running? && s'.initializer == Some(t))
            && (s.phase.Active? ==> s'.pcs[t] == Parked(false) && s'.futex.inbox == s.futex.inbox + [Waiter(t, 0)])
            && (s.phase.Init? ==> s.value.Some? && s'.pcs[t] == Got(s.value.value))
            && (s.phase.Poison? ==> s'.pcs[t].Panicked?)
  {
    hide Run, Start, Inv, Law;
    RunKeeps(tasks, schedule);
    TaskAt(Run(Start(tasks), schedule), t);
  }

  /** A call of get() never waits: it gets the value once the cell has one, panics if the
    cell is poisoned, and otherwise goes without. */
  lemma {:induction false} GetIsAnswered(tasks: nat, schedule: seq<(nat, Choice)>, t: nat, c: Choice)
    requires var s := Run(Start(tasks), schedule); t < |s.pcs| && s.pcs[t].Idle? && c.op.Get?
    ensures var s := Run(Start(tasks), schedule);
            var s' := Step(s, t, c);
            && t < |s'.pcs| && s' == s.(pcs := s'.pcs)
            && (s.phase.Init? ==> s.value.Some? && s'.pcs[t] == Got(s.value.value))
            && (s.phase.Poison? ==> s'.pcs[t].Panicked?)
            && (s.phase.Uninit? || s.phase.Active? ==> s'.pcs[t].Idle?)
  {
    hide Run, Start, Inv;
    RunKeeps(tasks, schedule);
    TaskAt(Run(Start(tasks), schedule), t);
  }

  /** Finishing is answered as well: the outcome is published, and the one who publishes it
    has everybody in hand that waited. */
  lemma {:induction false} FinishIsAnswered(tasks: nat, schedule: seq<(nat, Choice)>, t: nat)
    requires var s := Run(Start(tasks), schedule); t < |s.pcs| && s.pcs[t].FinishTake?
    ensures var s := Run(Start(tasks), schedule);
            var s' := Undisturbed(s, t, (pc: Pc) => pc.FinishTake?);
            && t < |s'.pcs| && s'.phase == s.pcs[t].phase && s'.pcs[t].FinishWake?
            && s'.pcs[t].list == Front(Enqueue(s.futex))
  {
    hide Run, Start, Inv, Law, Enqueue;
    RunKeeps(tasks, schedule);
    TaskAt(Run(Start(tasks), schedule), t);
  }

  /** No assertion, unwrap or panic of the futex is reached; in particular a woken waiter
    never waits again, and whoever gets a value gets the one that was set. */
  lemma {:induction false} NeverCrashes(tasks: nat, schedule: seq<(nat, Choice)>, i: nat)
    requires i < |Run(Start(tasks), schedule).pcs|
    ensures var s := Run(Start(tasks), schedule);
            var pc := s.pcs[i];
            && !pc.Crashed? && (pc.Look? && pc.used ==> !pc.snap.word.Active?)
            && (pc.Got? ==> s.phase.Init? && s.value == Some(pc.value))
            && (pc.Panicked? ==> s.phase.Poison?)
  {
    hide Run, Start, Inv;
    RunKeeps(tasks, schedule);
    TaskAt(Run(Start(tasks), schedule), i);
  }

  /** A sleeping call has the initializer at work for it: running, or about to wake it. */
  lemma {:induction false} NobodyLeftWaiting(tasks: nat, schedule: seq<(nat, Choice)>, i: nat)
    requires var s := Run(Start(tasks), schedule); i < |s.pcs| && PartOf(s.pcs[i]).waits.Some?
    ensures var s := Run(Start(tasks), schedule);
            && s.initializer.Some? && s.initializer.value < |s.pcs|
            && var pc := s.pcs[s.initializer.value];
               Initializing(pc) || (pc.FinishWake? && Waiter(i, 0) in pc.list)
  {
    hide Run, Start;
    RunKeeps(tasks, schedule);
    SleeperServed(Run(Start(tasks), schedule), i);
  }

  lemma {:induction false} SleeperServed(s: State, i: nat)
    requires Inv(s) && i < |s.pcs| && PartOf(s.pcs[i]).waits.Some?
    ensures s.initializer.Some? && s.initializer.value < |s.pcs|
    ensures var pc := s.pcs[s.initializer.value];
            Initializing(pc) || (pc.FinishWake? && Waiter(i, 0) in pc.list)
  {
    hide Local;
    if !s.phase.Active? {
      var parts := Parts(s.pcs);
      PartsUpdate(s.pcs, i, s.pcs[i]);
      if Gather(parts, HandOf) == multiset{} {
        SleeperFound(s.futex, parts, i);
      } else {
        var k := SleeperHeld(s, i);
        PartsUpdate(s.pcs, k, s.pcs[k]);
        assert PhaseOk(s.phase, s.initializer, k, s.pcs[k]);
      }
    }
  }

  /** With every list empty a sleeper is in a hand. */
  lemma {:induction false} SleeperHeld(s: State, i: nat) returns (k: nat)
    requires Inv(s) && i < |s.pcs| && PartOf(s.pcs[i]).waits.Some? && !s.phase.Active?
    ensures k < |s.pcs| && Waiter(i, 0) in Parts(s.pcs)[k].hand
  {
    hide Local, Phases;
    var parts, w := Parts(s.pcs), Waiter(i, 0);
    PartsUpdate(s.pcs, i, s.pcs[i]);
    assert Waits(parts, w);
    EmptyLists(s.futex);
    assert w in Listed(s.futex, parts);
    k := GatherPick(parts, HandOf, w);
  }

  lemma {:induction false} EmptyLists(f: Futex)
    requires |f.queues| == 1 && f.inbox == [] && Front(f) == []
    ensures Lists(f) == multiset{}
  {
    GatherEmpty(f.queues, AsMultiset);
  }
}
