/** What the fair mutex and the condition variable promise: they refine a first-in
  first-out lock with a waiting room, no task overtakes another in line, and a wait
  comes back with the mutex.
 */
module FairMutexOrder {
  import opened Counting
  import opened FairMutex
  import opened FairMutexProof
  import opened Futex
  import opened FutexLaws
  import opened Options
  import opened Sequences

  // ----- the lock as its users see it -----

  /** holder: the task the mutex belongs to, from the moment it is handed over.
    line: the tasks that wait for the mutex. room: those that wait to be notified. */
  datatype Fifo = Fifo(holder: Option<nat>, line: seq<Waiter>, room: seq<Waiter>)

  datatype Event =
    | Stay
    | Acquire(task: nat)
    | Join(w: Waiter)
    | Release
    | Enter(w: Waiter)
    | Move(count: nat)
    | Quit(w: Waiter)

  predicate Allowed(a: Fifo, e: Event)
  {
    match e
    case Stay => true
    case Acquire(_) => a.holder.None? && a.line == []
    case Join(w) => a.holder.Some? && a.holder != Some(w.task)
    case Release => a.holder.Some?
    case Enter(w) => a.holder == Some(w.task)
    case Move(count) => a.holder.Some? && count <= |a.room|
    case Quit(_) => true
  }

  function Apply(a: Fifo, e: Event): Fifo
    requires Allowed(a, e)
  {
    match e
    case Stay => a
    case Acquire(task) => a.(holder := Some(task))
    case Join(w) => a.(line := a.line + [w])
    case Release => if a.line == [] then a.(holder := None) else Fifo(Some(a.line[0].task), a.line[1..], a.room)
    case Enter(w) => a.(room := a.room + [w])
    case Move(count) => a.(line := a.line + a.room[..count], room := a.room[count..])
    case Quit(w) => a.(line := Without(a.line, w), room := Without(a.room, w))
  }

  /** Each task acts for itself: only the holder releases the lock or moves waiters, and
    only a waiter itself leaves its line. */
  predicate By(a: Fifo, t: nat, e: Event)
  {
    match e
    case Stay => true
    case Acquire(task) => task == t
    case Join(_) | Enter(_) | Quit(_) => e.w.task == t
    case Release | Move(_) => a.holder == Some(t)
  }

  predicate Legal(a: Fifo, log: seq<Event>)
    decreases |log|
  {
    log == [] || (Allowed(a, log[0]) && Legal(Apply(a, log[0]), log[1..]))
  }

  function Replay(a: Fifo, log: seq<Event>): Fifo
    requires Legal(a, log)
    decreases |log|
  {
    if log == [] then a else Replay(Apply(a, log[0]), log[1..])
  }

  lemma {:induction false} ReplayOne(a: Fifo, log: seq<Event>, e: Event)
    requires Legal(a, log) && Allowed(Replay(a, log), e)
    ensures Legal(a, log + [e]) && Replay(a, log + [e]) == Apply(Replay(a, log), e)
    decreases |log|
  {
    if log == [] {
      assert (log + [e])[1..] == [];
    } else {
      ReplayOne(Apply(a, log[0]), log[1..], e);
      assert (log + [e])[1..] == log[1..] + [e];
    }
  }

  /** Every event of the log is an act of the task whose turn it was. */
  predicate Acted(a: Fifo, log: seq<Event>, schedule: seq<(nat, Choice)>)
    requires Legal(a, log) && |schedule| == |log|
    decreases |log|
  {
    log == [] || (By(a, schedule[0].0, log[0]) && Acted(Apply(a, log[0]), log[1..], schedule[1..]))
  }

  lemma {:induction false} ActedOne(a: Fifo, log: seq<Event>, e: Event, schedule: seq<(nat, Choice)>)
    requires Legal(a, log) && Allowed(Replay(a, log), e) && Legal(a, log + [e])
    requires |schedule| == |log| + 1 && Acted(a, log, schedule[..|log|]) && By(Replay(a, log), schedule[|log|].0, e)
    ensures Acted(a, log + [e], schedule)
    decreases |log|
  {
    hide Allowed, Apply, By;
    if log == [] {
      assert (log + [e])[1..] == [];
    } else {
      assert (log + [e])[1..] == log[1..] + [e];
      assert schedule[..|log|][1..] == schedule[1..][..|log| - 1];
      ActedOne(Apply(a, log[0]), log[1..], e, schedule[1..]);
    }
  }

  // ----- the view of a machine state -----

  function Flying(s: State): seq<Waiter>
  {
    if s.carrier.Some? && s.carrier.value < |s.tasks| then HandAt(OfCondvar, s.tasks[s.carrier.value].pc) else []
  }

  function Holder(s: State): Option<nat>
  {
    if s.carrier.Some? && s.carrier.value < |s.tasks| then
      match s.tasks[s.carrier.value].pc
      case HandDrop(_, w) => Some(w.task)
      case HandWake(_, w) => Some(w.task)
      case _ => s.carrier
    else None
  }

  function View(s: State): Fifo
  {
    Fifo(Holder(s), Front(s.m) + s.m.inbox, Flying(s) + (Front(s.c) + s.c.inbox))
  }

  // ----- refinement, operation by operation -----

  predicate Shows(s: State, s': State, e: Event)
  {
    Allowed(View(s), e) && View(s') == Apply(View(s), e)
  }

  predicate SameHands(pc: Pc, next: Pc)
  {
    HandAt(OfMutex, next) == HandAt(OfMutex, pc) && HandAt(OfCondvar, next) == HandAt(OfCondvar, pc)
  }

  /** Tasks that keep what they have in hand keep the view. */
  lemma {:induction false} TasksView(s: State, tasks: seq<Task>)
    requires |tasks| == |s.tasks| && forall i :: 0 <= i < |tasks| ==> SameHands(s.tasks[i].pc, tasks[i].pc)
    ensures View(s.(tasks := tasks)) == View(s)
  {
    if s.carrier.Some? && s.carrier.value < |s.tasks| {
      HandHolder(s.tasks[s.carrier.value].pc, tasks[s.carrier.value].pc);
    }
  }

  lemma {:induction false} HandHolder(pc: Pc, pc': Pc)
    requires SameHands(pc, pc')
    ensures pc.HandDrop? || pc.HandWake? <==> pc'.HandDrop? || pc'.HandWake?
    ensures (pc.HandDrop? || pc.HandWake?) ==> pc'.w == pc.w
  {
    if (pc.HandDrop? || pc.HandWake?) && (pc'.HandDrop? || pc'.HandWake?) {
      assert HandAt(OfMutex, pc)[0] == pc.w;
    }
  }

  lemma {:induction false} LockView(s: State, side: Side, f: Futex)
    requires f.inbox == Of(s, side).inbox && f.queues == Of(s, side).queues
    ensures View(With(s, side, f)) == View(s)
  {
  }

  lemma {:induction false} GotoView(s: State, t: nat, next: Pc)
    requires t < |s.tasks| && SameHands(s.tasks[t].pc, next)
    ensures View(Goto(s, t, next)) == View(s)
  {
    hide View, HandAt;
    TasksView(s, Goto(s, t, next).tasks);
  }

  /** A lock taken or released, or a look at a word, shows nothing. */
  lemma {:induction false} GuardView(s: State, t: nat, side: Side, next: Pc)
    requires t < |s.tasks| && SameHands(s.tasks[t].pc, next)
    ensures View(ShareGuard(s, t, side, next)) == View(s)
    ensures View(UnshareGuard(s, t, side, next)) == View(s)
    ensures View(Return(s, t, side, next)) == View(s)
    ensures !Of(s, side).borrowed ==> View(Borrow(s, t, side, next)) == View(s)
    ensures View(With(Goto(s, t, next), side, Exclude(Of(s, side)))) == View(s)
    ensures View(With(Goto(s, t, next), side, Include(Of(s, side)))) == View(s)
  {
    hide View, HandAt;
    GotoView(s, t, next);
    var g := Goto(s, t, next);
    LockView(g, side, Share(Of(s, side)));
    LockView(g, side, Unshare(Of(s, side)));
    LockView(g, side, TakeBorrow(Of(s, side)));
    LockView(g, side, DropBorrow(Of(s, side)));
    LockView(g, side, Exclude(Of(s, side)));
    LockView(g, side, Include(Of(s, side)));
  }

  lemma {:induction false} AcquireView(s: State, t: nat)
    requires Inv(s) && t < |s.tasks| && s.tasks[t].pc.LockTry? && s.word == 0
    ensures Allowed(View(s), Acquire(t))
    ensures View(Goto(s, t, Locked).(word := 1, carrier := Some(t))) == Apply(View(s), Acquire(t))
  {
    hide Law, Local, Owned;
    assert s.carrier == None;
  }

  /** The mutex never belongs to a task that asks for it. */
  lemma {:induction false} NotHolder(s: State, t: nat)
    requires Inv(s) && t < |s.tasks| && s.tasks[t].pc.LockTry?
    ensures Holder(s) != Some(t)
  {
    hide Inv, Lawful;
    TaskAtCarrier(s, t);
    Lawfuls(s, OfMutex);
    if s.carrier.Some? && (s.tasks[s.carrier.value].pc.HandDrop? || s.tasks[s.carrier.value].pc.HandWake?) {
      var k := s.carrier.value;
      assert PartOf(OfMutex, s.tasks[k]).hand[0] == s.tasks[k].pc.w;
      HandSleeps(s.m, Parts(OfMutex, s.tasks), k);
    }
  }

  /** Who asks for the mutex neither carries it nor sleeps. */
  lemma {:induction false} TaskAtCarrier(s: State, t: nat)
    requires Inv(s) && t < |s.tasks| && s.tasks[t].pc.LockTry?
    ensures s.carrier != Some(t) && (s.carrier.Some? ==> s.carrier.value < |s.tasks|)
    ensures PartOf(OfMutex, s.tasks[t]).waits.None?
  {
    hide Law;
    TaskAt(s, t);
  }

  lemma {:induction false} JoinView(s: State, t: nat)
    requires Inv(s) && t < |s.tasks| && s.tasks[t].pc.LockTry? && s.word == 1
    ensures Allowed(View(s), Join(Waiter(t, 0)))
    ensures View(Park(s, t, OfMutex, Parked(false))) == Apply(View(s), Join(Waiter(t, 0)))
  {
    hide Inv;
    NotHolder(s, t);
    CarrierElsewhere(s, t);
    var s' := Park(s, t, OfMutex, Parked(false));
    assert Front(s'.m) + s'.m.inbox == (Front(s.m) + s.m.inbox) + [Waiter(t, 0)];
  }

  lemma {:induction false} CarrierElsewhere(s: State, t: nat)
    requires Inv(s) && t < |s.tasks| && s.tasks[t].pc.LockTry? && s.word == 1
    ensures s.carrier.Some? && s.carrier.value < |s.tasks| && s.carrier.value != t
  {
    TaskAt(s, t);
  }

  lemma {:induction false} EnterView(s: State, t: nat)
    requires Inv(s) && t < |s.tasks| && s.tasks[t].pc.WaitTry?
    ensures Allowed(View(s), Enter(Waiter(t, 0)))
    ensures View(Park(s, t, OfCondvar, UnlockShare(true)).(used := 1)) == Apply(View(s), Enter(Waiter(t, 0)))
  {
    hide Inv;
    TokenWord(s, t);
    var s' := Park(s, t, OfCondvar, UnlockShare(true)).(used := 1);
    assert Front(s'.c) + s'.c.inbox == (Front(s.c) + s.c.inbox) + [Waiter(t, 0)];
    assert [] + (Front(s.c) + s.c.inbox) == Front(s.c) + s.c.inbox;
    assert [] + (Front(s'.c) + s'.c.inbox) == Front(s'.c) + s'.c.inbox;
  }

  /** Popping the first waiter hands the mutex over to it. */
  lemma {:induction false} TakeView(s: State, t: nat, cv: bool, f: Futex)
    requires Inv(s) && t < |s.tasks| && (s.tasks[t].pc.UnlockPop? || s.tasks[t].pc.UnlockDecide?)
    requires s.tasks[t].pc.cv == cv && (f == s.m || f == Enqueue(s.m)) && Front(f) != []
    ensures Shows(s, Take(s, t, cv, f), Release)
  {
    hide Inv, Enqueue, Pop, Front, Holder, Flying;
    TokenWord(s, t);
    TakeLine(s, f);
    TakenLine(f);
    TakeHolder(s, t, cv, f);
    assert View(s).line != [];
  }

  /** Distribution keeps the waiting order. */
  lemma {:induction false} TakeLine(s: State, f: Futex)
    requires Inv(s) && (f == s.m || f == Enqueue(s.m)) && Front(f) != []
    ensures |f.queues| == 1 && Front(f) == f.queues[0] && Front(f) + f.inbox == Front(s.m) + s.m.inbox
  {
    SingleQueue(s.m, Parts(OfMutex, s.tasks));
  }

  lemma {:induction false} TakeHolder(s: State, t: nat, cv: bool, f: Futex)
    requires t < |s.tasks| && s.carrier == Some(t) && (s.tasks[t].pc.UnlockPop? || s.tasks[t].pc.UnlockDecide?)
    requires Front(f) != []
    ensures Holder(s) == Some(t) && Flying(s) == []
    ensures var s' := Take(s, t, cv, f);
            && s'.m == Pop(f, 0, 1) && s'.c == s.c
            && Holder(s') == Some(f.queues[0][0].task) && Flying(s') == []
  {
  }

  lemma {:induction false} TakenLine(f: Futex)
    requires |f.queues| == 1 && f.queues[0] != []
    ensures Front(Pop(f, 0, 1)) + Pop(f, 0, 1).inbox == (Front(f) + f.inbox)[1..]
    ensures f.queues[0][0] == (Front(f) + f.inbox)[0]
  {
  }

  lemma {:induction false} FreeView(s: State, t: nat, cv: bool, snap: Snap<nat>)
    requires Inv(s) && t < |s.tasks| && s.tasks[t].pc == UnlockFree(cv, snap) && snap == Mutex(s)
    ensures Allowed(View(s), Release)
    ensures View(Goto(s, t, UnlockLeave(cv)).(word := 0, carrier := None)) == Apply(View(s), Release)
  {
    hide Inv;
    TokenWord(s, t);
    TaskAt(s, t);
  }

  /** Waking the waiter in hand changes nothing that is not settled already. */
  lemma {:induction false} WakeView(s: State, t: nat, cv: bool, w: Waiter)
    requires Inv(s) && t < |s.tasks| && s.tasks[t].pc == HandWake(cv, w)
    ensures View(Wake(s, t, w, UnlockLeave(cv))) == View(s)
  {
    hide Inv;
    TokenWord(s, t);
    HandAsleep(s, t, cv, w);
  }

  lemma {:induction false} NotifyTakeView(s: State, t: nat, n: nat)
    requires Inv(s) && t < |s.tasks| && s.tasks[t].pc.NotifyTake? && n <= |Enqueue(s.c).queues[0]|
    ensures var s' := Goto(s, t, NotifyDrop(Enqueue(s.c).queues[0][..n])).(used := 1, c := Pop(Enqueue(s.c), 0, n));
            View(s') == View(s) && View(s).room == Enqueue(s.c).queues[0]
  {
    hide Inv, Enqueue, Pop, Front, Holder, Flying;
    TokenWord(s, t);
    RoomLine(s);
    var room := Enqueue(s.c).queues[0];
    var s' := Goto(s, t, NotifyDrop(room[..n])).(used := 1, c := Pop(Enqueue(s.c), 0, n));
    TakenRoom(Enqueue(s.c), n);
    NotifyHolder(s, t, s', room[..n]);
    assert View(s).room == [] + room == room;
    assert View(s').room == room[..n] + (room[n..] + []) == room;
  }

  lemma {:induction false} RoomLine(s: State)
    requires Inv(s)
    ensures |Enqueue(s.c).queues| == 1 && Enqueue(s.c).inbox == []
    ensures Enqueue(s.c).queues[0] == Front(s.c) + s.c.inbox
  {
    SingleQueue(s.c, Parts(OfCondvar, s.tasks));
  }

  lemma {:induction false} TakenRoom(f: Futex, n: nat)
    requires |f.queues| == 1 && n <= |f.queues[0]|
    ensures Front(Pop(f, 0, n)) == f.queues[0][n..] && Pop(f, 0, n).inbox == f.inbox
  {
  }

  lemma {:induction false} NotifyHolder(s: State, t: nat, s': State, list: seq<Waiter>)
    requires t < |s.tasks| && s.carrier == Some(t) && s.tasks[t].pc.NotifyTake?
    requires s'.tasks == Goto(s, t, NotifyDrop(list)).tasks && s'.carrier == s.carrier
    ensures Holder(s') == Holder(s) && Flying(s) == [] && Flying(s') == list
  {
  }

  lemma {:induction false} PushView(s: State, t: nat, list: seq<Waiter>, snap: Snap<nat>)
    requires Inv(s) && t < |s.tasks| && s.tasks[t].pc == NotifyPush(list, snap)
    ensures Allowed(View(s), Move(|list|)) && View(s).room[..|list|] == list
    ensures Shows(s, Pushed(s, t, list), Move(|list|))
  {
    hide Inv, Rehome, Named;
    TokenWord(s, t);
    PusherNotNamed(s, t, list, snap);
    RehomeAt(s.tasks[t := s.tasks[t].(pc := NotifyLeaveMutex)], list, t);
    var s' := Pushed(s, t, list);
    var rest := Front(s.c) + s.c.inbox;
    assert Flying(s) == list && Flying(s') == [];
    assert View(s).room == list + rest;
    assert View(s').room == [] + rest == rest;
    assert View(s').line == View(s).line + list;
    assert (list + rest)[|list|..] == rest && (list + rest)[..|list|] == list;
  }

  function Pushed(s: State, t: nat, list: seq<Waiter>): State
    requires t < |s.tasks|
  {
    s.(m := s.m.(inbox := s.m.inbox + list),
       tasks := Rehome(s.tasks[t := s.tasks[t].(pc := NotifyLeaveMutex)], list))
  }

  // ----- leaving a line -----

  /** A waiter that does not sleep in a futex is in no list of it. */
  lemma {:induction false} NotListed(f: Futex, parts: seq<Part>, t: nat)
    requires Lawful(f, parts) && |f.queues| == 1 && t < |parts| && parts[t].waits.None?
    ensures Waiter(t, 0) !in Front(f) + f.inbox
    ensures forall i :: 0 <= i < |parts| ==> Waiter(t, 0) !in parts[i].hand
  {
    var w := Waiter(t, 0);
    if w in Front(f) + f.inbox {
      ListedWaits(f, parts, w);
    }
    forall i | 0 <= i < |parts|
      ensures w !in parts[i].hand
    {
      if w in parts[i].hand {
        ListedWaits(f, parts, w);
      }
    }
  }

  /** Nobody else's list is touched: the waiter sleeps on the side it is unlinked from. */
  lemma {:induction false} OtherSide(s: State, t: nat, side: Side)
    requires Inv(s) && t < |s.tasks| && s.tasks[t].pc.CancelFlip? && s.tasks[t].pc.side == side
    ensures Flying(s) == [] || side == OfMutex
    ensures side == OfMutex ==> Waiter(t, 0) !in Flying(s) + (Front(s.c) + s.c.inbox)
    ensures side == OfCondvar ==> Waiter(t, 0) !in Front(s.m) + s.m.inbox
  {
    TaskAt(s, t);
    NotListed(Of(s, Other(side)), Parts(Other(side), s.tasks), t);
    if side == OfMutex {
      if s.carrier.Some? {
        assert Parts(OfCondvar, s.tasks)[s.carrier.value].hand == Flying(s);
      }
    } else {
      ExclusiveAlone(s.c, Parts(OfCondvar, s.tasks), t);
      if s.carrier.Some? {
        assert Parts(OfCondvar, s.tasks)[s.carrier.value].hand == Flying(s);
      }
    }
  }

  lemma {:induction false} QuitView(s: State, t: nat, side: Side, f: Futex)
    requires Inv(s) && t < |s.tasks| && s.tasks[t].pc.CancelFlip? && s.tasks[t].pc.side == side
    requires Flipped(Of(s, side), f, s.tasks[t].pc.snap)
    ensures Shows(s, Unlinked(s, t, side, f), Quit(Waiter(t, 0)))
  {
    hide Inv, Unlink, Holder, Flying, Flipped, Front, Shows;
    OtherSide(s, t, side);
    QuitOrder(s, t, side, f);
    QuitHolder(s, Unlinked(s, t, side, f), t);
    if side == OfMutex {
      QuitLine(s, Unlinked(s, t, side, f), Waiter(t, 0));
    } else {
      QuitRoom(s, Unlinked(s, t, side, f), Waiter(t, 0));
    }
  }

  lemma {:induction false} QuitLine(s: State, s': State, w: Waiter)
    requires w !in Flying(s) + (Front(s.c) + s.c.inbox) && s'.c == s.c
    requires Front(s'.m) + s'.m.inbox == Without(Front(s.m) + s.m.inbox, w)
    requires Holder(s') == Holder(s) && Flying(s') == Flying(s)
    ensures Shows(s, s', Quit(w))
  {
    hide Holder, Flying, Front;
    WithoutAbsent(View(s).room, w);
  }

  lemma {:induction false} QuitRoom(s: State, s': State, w: Waiter)
    requires w !in Front(s.m) + s.m.inbox && s'.m == s.m && Flying(s) == []
    requires Front(s'.c) + s'.c.inbox == Without(Front(s.c) + s.c.inbox, w)
    requires Holder(s') == Holder(s) && Flying(s') == Flying(s)
    ensures Shows(s, s', Quit(w))
  {
    hide Holder, Flying, Front;
    WithoutAbsent(View(s).line, w);
    NoFront(Front(s.c) + s.c.inbox);
    NoFront(Without(Front(s.c) + s.c.inbox, w));
  }

  lemma {:induction false} QuitOrder(s: State, t: nat, side: Side, f: Futex)
    requires Inv(s) && t < |s.tasks| && s.tasks[t].pc.CancelFlip? && s.tasks[t].pc.side == side
    requires Flipped(Of(s, side), f, s.tasks[t].pc.snap)
    ensures var f' := Include(Unlink(f, Waiter(t, 0)));
            Front(f') + f'.inbox == Without(Front(Of(s, side)) + Of(s, side).inbox, Waiter(t, 0))
  {
    UnlinkOrder(Of(s, side), f, Parts(side, s.tasks), t);
  }

  function Unlinked(s: State, t: nat, side: Side, f: Futex): State
    requires t < |s.tasks| && s.tasks[t].pc.CancelFlip?
  {
    With(Goto(s, t, CancelCheck(s.tasks[t].pc.cv)), side, Include(Unlink(f, Waiter(t, 0))))
  }

  lemma {:induction false} QuitHolder(s: State, s': State, t: nat)
    requires t < |s.tasks| && s.tasks[t].pc.CancelFlip? && s'.carrier == s.carrier
    requires s'.tasks == Goto(s, t, CancelCheck(s.tasks[t].pc.cv)).tasks
    ensures Holder(s') == Holder(s) && Flying(s') == Flying(s)
  {
  }

  // ----- every step -----

  lemma {:induction false} StayShows(s: State, s': State)
    requires View(s') == View(s)
    ensures Shows(s, s', Stay)
  {
  }

  lemma {:induction false} LockTryShows(s: State, t: nat, c: Choice, snap: Snap<nat>) returns (e: Event)
    requires Inv(s) && t < |s.tasks| && s.tasks[t].pc == LockTry(snap)
    ensures Shows(s, StepLockTry(s, t, c, snap), e)
    ensures By(View(s), t, e)
    ensures !e.Quit?
  {
    WordIsBit(s);
    if c.spurious || snap != Mutex(s) {
      GotoView(s, t, LockTry(Mutex(s)));
      e := Stay;
    } else if snap.word == 0 {
      AcquireView(s, t);
      e := Acquire(t);
    } else {
      JoinView(s, t);
      hide Inv, View;
      assert Park(s, t, OfMutex, Parked(false)).(word := 1) == Park(s, t, OfMutex, Parked(false));
      e := Join(Waiter(t, 0));
    }
  }

  lemma {:induction false} WaitTryShows(s: State, t: nat, c: Choice, snap: Snap<nat>) returns (e: Event)
    requires Inv(s) && t < |s.tasks| && s.tasks[t].pc == WaitTry(snap)
    ensures Shows(s, StepWaitTry(s, t, c, snap), e)
    ensures By(View(s), t, e)
    ensures !e.Quit?
  {
    TaskAt(s, t);
    if c.spurious || snap != Condvar(s) {
      GotoView(s, t, WaitTry(Condvar(s)));
      e := Stay;
    } else {
      EnterView(s, t);
      e := Enter(Waiter(t, 0));
    }
  }

  lemma {:induction false} TurnView(s: State, t: nat, y: Task)
    requires t < |s.tasks| && SameHands(s.tasks[t].pc, y.pc)
    ensures View(s.(tasks := s.tasks[t := y])) == View(s)
  {
    hide View, HandAt;
    TasksView(s, s.tasks[t := y]);
  }

  lemma {:induction false} LockShows(s: State, t: nat, c: Choice) returns (e: Event)
    requires Inv(s) && t < |s.tasks|
    requires var pc := s.tasks[t].pc; pc.Idle? || pc.LockTry? || pc.Parked? || pc.Locked? || pc.WaitTry?
    ensures Shows(s, Step(s, t, c), e)
    ensures By(View(s), t, e)
    ensures !e.Quit?
  {
    hide Inv, View, Apply, Allowed, StepLockTry, StepWaitTry;
    e := Stay;
    var x := s.tasks[t];
    match x.pc
    case LockTry(snap) => e := LockTryShows(s, t, c, snap);
    case WaitTry(snap) => e := WaitTryShows(s, t, c, snap);
    case Idle =>
      GotoView(s, t, LockTry(Mutex(s)));
      StayShows(s, Step(s, t, c));
    case Parked(cv) =>
      GotoView(s, t, CancelWait(cv, x.owner));
      TurnView(s, t, x.(pc := Locked, slot := Off));
      StayShows(s, Step(s, t, c));
    case Locked =>
      GotoView(s, t, WaitTry(Condvar(s)));
      if c.op.StartNotify? {
        GotoView(s, t, NotifyShare(Condvar(s), c.op.count));
      }
      GotoView(s, t, UnlockShare(false));
      StayShows(s, Step(s, t, c));
  }

  /** The task that takes the next waiter, frees the word or publishes its list is the
    holder. */
  lemma {:induction false} HolderActs(s: State, t: nat)
    requires Inv(s) && t < |s.tasks|
    requires var pc := s.tasks[t].pc; pc.UnlockPop? || pc.UnlockDecide? || pc.UnlockFree? || pc.NotifyPush?
    ensures View(s).holder == Some(t)
  {
    hide Inv;
    TokenWord(s, t);
  }

  lemma {:induction false} PopShows(s: State, t: nat, cv: bool) returns (e: Event)
    requires Inv(s) && t < |s.tasks| && s.tasks[t].pc == UnlockPop(cv)
    ensures Shows(s, if Front(s.m) != [] then Take(s, t, cv, s.m) else Goto(s, t, UnlockDecide(cv, Mutex(s))), e)
    ensures By(View(s), t, e)
    ensures !e.Quit?
  {
    HolderActs(s, t);
    if Front(s.m) != [] {
      TakeView(s, t, cv, s.m);
      e := Release;
    } else {
      GotoView(s, t, UnlockDecide(cv, Mutex(s)));
      e := Stay;
    }
  }

  /** A waiter seen in the inbox becomes the holder. */
  lemma {:induction false} DecideTakeShows(s: State, t: nat, cv: bool)
    requires Inv(s) && t < |s.tasks| && s.tasks[t].pc.UnlockDecide? && s.tasks[t].pc.cv == cv && s.m.inbox != []
    ensures Shows(s, Take(s, t, cv, Enqueue(s.m)).(word := 1), Release)
  {
    hide Inv, View, Enqueue;
    SeenInbox(s);
    TokenWord(s, t);
    TakeView(s, t, cv, Enqueue(s.m));
    assert Take(s, t, cv, Enqueue(s.m)).(word := 1) == Take(s, t, cv, Enqueue(s.m));
  }

  lemma {:induction false} DecideShows(s: State, t: nat, c: Choice, cv: bool, snap: Snap<nat>) returns (e: Event)
    requires Inv(s) && t < |s.tasks| && s.tasks[t].pc == UnlockDecide(cv, snap)
    ensures Shows(s, StepUnlockDecide(s, t, c, cv, snap), e)
    ensures By(View(s), t, e)
    ensures !e.Quit?
  {
    hide Inv, View, Shows, Take, Enqueue, Return;
    HolderActs(s, t);
    if snap.inbox.Some? && !c.spurious && snap == Mutex(s) {
      DecideTakeShows(s, t, cv);
      e := Release;
    } else {
      GuardView(s, t, OfMutex, UnlockFree(cv, snap));
      GotoView(s, t, UnlockDecide(cv, Mutex(s)));
      StayShows(s, StepUnlockDecide(s, t, c, cv, snap));
      e := Stay;
    }
  }

  lemma {:induction false} FreeShows(s: State, t: nat, c: Choice, cv: bool, snap: Snap<nat>) returns (e: Event)
    requires Inv(s) && t < |s.tasks| && s.tasks[t].pc == UnlockFree(cv, snap)
    ensures Shows(s, StepUnlockFree(s, t, c, cv, snap), e)
    ensures By(View(s), t, e)
    ensures !e.Quit?
  {
    HolderActs(s, t);
    if !c.spurious && snap == Mutex(s) {
      FreeView(s, t, cv, snap);
      e := Release;
    } else {
      GotoView(s, t, UnlockRelock(cv, Mutex(s)));
      e := Stay;
    }
  }

  /** Only the carrier borrows, so the borrow is free whenever it is taken. */
  lemma {:induction false} BorrowFreeAt(s: State, t: nat, side: Side, next: Pc)
    requires Inv(s) && t < |s.tasks| && Borrows(s.tasks[t].pc, side, next)
    ensures !Of(s, side).borrowed
  {
    hide Inv, Borrows, Relock, PartOf, TaskOk, HasToken;
    TaskAt(s, t);
    BorrowFacts(Front(s.m) == [], s.tasks[t], side, next);
    BorrowKeeps(s, t, side, next);
  }

  lemma {:induction false} UnlockShows(s: State, t: nat, c: Choice) returns (e: Event)
    requires Inv(s) && t < |s.tasks| && (Releasing(s.tasks[t].pc) || s.tasks[t].pc.UnlockLeave?)
    ensures Shows(s, Step(s, t, c), e)
    ensures By(View(s), t, e)
    ensures !e.Quit?
  {
    hide Inv, Shows, View, StepUnlockDecide, StepUnlockFree, Take, Wake, ShareGuard, UnshareGuard, Borrow, Return,
        Front;
    e := Stay;
    match s.tasks[t].pc
    case UnlockShare(cv) =>
      GuardView(s, t, OfMutex, UnlockBorrow(cv));
      StayShows(s, Step(s, t, c));
    case UnlockBorrow(cv) =>
      BorrowFreeAt(s, t, OfMutex, UnlockPop(cv));
      GuardView(s, t, OfMutex, UnlockPop(cv));
      StayShows(s, Step(s, t, c));
    case UnlockPop(cv) => e := PopShows(s, t, cv);
    case UnlockDecide(cv, snap) => e := DecideShows(s, t, c, cv, snap);
    case UnlockFree(cv, snap) => e := FreeShows(s, t, c, cv, snap);
    case UnlockRelock(cv, snap) =>
      BorrowFreeAt(s, t, OfMutex, UnlockDecide(cv, snap));
      GuardView(s, t, OfMutex, UnlockDecide(cv, snap));
      StayShows(s, Step(s, t, c));
    case HandDrop(cv, w) =>
      GuardView(s, t, OfMutex, HandWake(cv, w));
      StayShows(s, Step(s, t, c));
    case HandWake(cv, w) =>
      WakeView(s, t, cv, w);
      StayShows(s, Step(s, t, c));
    case UnlockLeave(cv) =>
      GuardView(s, t, OfMutex, AfterUnlock(cv));
      StayShows(s, Step(s, t, c));
  }

  lemma {:induction false} StoreView(s: State, t: nat, list: seq<Waiter>, stored: nat)
    requires Inv(s) && t < |s.tasks| && s.tasks[t].pc == NotifyStore(list, stored)
    ensures View(StepNotifyStore(s, t, list, stored)) == View(s)
  {
    hide Inv, View;
    TaskAt(s, t);
    if stored < |list| {
      ListMovable(s, t, list[stored]);
      StoreOneView(s, t, list, stored);
    } else {
      GotoView(s, t, NotifyPush(list, Mutex(s)));
    }
  }

  lemma {:induction false} StoreOneView(s: State, t: nat, list: seq<Waiter>, stored: nat)
    requires t < |s.tasks| && s.tasks[t].pc == NotifyStore(list, stored) && stored < |list|
    requires list[stored].task < |s.tasks| && list[stored].task != t
    ensures View(StepNotifyStore(s, t, list, stored)) == View(s)
  {
    hide View;
    var k := list[stored].task;
    var g := s.(tasks := s.tasks[k := s.tasks[k].(owner := OfMutex)]);
    assert g.tasks[t] == s.tasks[t];
    TurnView(s, k, s.tasks[k].(owner := OfMutex));
    GotoView(g, t, NotifyStore(list, stored + 1));
  }

  lemma {:induction false} NotifyTakeShows(s: State, t: nat, c: Choice, snap: Snap<nat>, count: nat)
    requires Inv(s) && t < |s.tasks| && s.tasks[t].pc == NotifyTake(snap, count)
    ensures Shows(s, StepNotifyTake(s, t, c, snap, count), Stay)
  {
    hide View;
    if c.spurious || snap != Condvar(s) || |s.c.queues| == 0 {
      GotoView(s, t, NotifyTake(Condvar(s), count));
    } else {
      NotifyTakeView(s, t, Min(count, |Enqueue(s.c).queues[0]|));
    }
    StayShows(s, StepNotifyTake(s, t, c, snap, count));
  }

  lemma {:induction false} PushShows(s: State, t: nat, c: Choice, list: seq<Waiter>, snap: Snap<nat>) returns (e: Event)
    requires Inv(s) && t < |s.tasks| && s.tasks[t].pc == NotifyPush(list, snap)
    ensures Shows(s, StepNotifyPush(s, t, c, list, snap), e)
    ensures By(View(s), t, e)
    ensures !e.Quit?
  {
    hide Inv, View;
    HolderActs(s, t);
    if c.spurious || snap != Mutex(s) {
      GotoView(s, t, NotifyPush(list, Mutex(s)));
      StayShows(s, Goto(s, t, NotifyPush(list, Mutex(s))));
      e := Stay;
    } else {
      PushView(s, t, list, snap);
      e := Move(|list|);
    }
  }

  lemma {:induction false} NotifyShows(s: State, t: nat, c: Choice) returns (e: Event)
    requires Inv(s) && t < |s.tasks| && Notifying(s.tasks[t].pc)
    ensures Shows(s, Step(s, t, c), e)
    ensures By(View(s), t, e)
    ensures !e.Quit?
  {
    hide Inv, Shows, View, StepNotifyTake, StepNotifyStore, StepNotifyPush, ShareGuard, UnshareGuard, Borrow, Return;
    e := Stay;
    match s.tasks[t].pc
    case NotifyShare(snap, count) =>
      GuardView(s, t, OfCondvar, NotifyBorrow(snap, count));
      StayShows(s, Step(s, t, c));
    case NotifyBorrow(snap, count) =>
      BorrowFreeAt(s, t, OfCondvar, NotifyTake(snap, count));
      GuardView(s, t, OfCondvar, NotifyTake(snap, count));
      StayShows(s, Step(s, t, c));
    case NotifyTake(snap, count) => NotifyTakeShows(s, t, c, snap, count);
    case NotifyDrop(list) =>
      GuardView(s, t, OfCondvar, NotifyMutex(list));
      StayShows(s, Step(s, t, c));
    case NotifyMutex(list) =>
      GuardView(s, t, OfMutex, if list == [] then NotifyLeaveMutex else NotifyStore(list, 0));
      StayShows(s, Step(s, t, c));
    case NotifyStore(list, stored) =>
      StoreView(s, t, list, stored);
      StayShows(s, Step(s, t, c));
    case NotifyPush(list, snap) => e := PushShows(s, t, c, list, snap);
    case NotifyLeaveMutex =>
      GuardView(s, t, OfMutex, NotifyLeave);
      StayShows(s, Step(s, t, c));
    case NotifyLeave =>
      GuardView(s, t, OfCondvar, Locked);
      StayShows(s, Step(s, t, c));
  }

  lemma {:induction false} CancelFlipShows(s: State, t: nat, c: Choice, cv: bool, side: Side, snap: Snap<nat>)
    returns (e: Event)
    requires Inv(s) && t < |s.tasks| && s.tasks[t].pc == CancelFlip(cv, side, snap)
    ensures Shows(s, StepCancelFlip(s, t, c, cv, side, snap), e)
    ensures By(View(s), t, e)
    ensures e.Quit? ==> s.tasks[t].pc.CancelFlip?
  {
    hide Inv, View, Apply, Allowed, Unlink, Enqueue;
    if snap.inbox.None? {
      QuitView(s, t, side, Of(s, side));
      e := Quit(Waiter(t, 0));
    } else if !c.spurious && snap == Look(s, side) {
      QuitView(s, t, side, Enqueue(Of(s, side)));
      e := Quit(Waiter(t, 0));
    } else {
      GotoView(s, t, CancelFlip(cv, side, Look(s, side)));
      StayShows(s, Goto(s, t, CancelFlip(cv, side, Look(s, side))));
      e := Stay;
    }
  }

  lemma {:induction false} CancelCheckView(s: State, t: nat, cv: bool)
    requires Inv(s) && t < |s.tasks| && s.tasks[t].pc == CancelCheck(cv)
    ensures View(StepCancelCheck(s, t, cv)) == View(s)
  {
    hide Inv, View;
    TaskAt(s, t);
    var x := s.tasks[t];
    TurnView(s, t, x.(pc := if cv then Unimplemented else Idle, slot := Off));
    TurnView(s, t, x.(pc := UnlockShare(false), slot := Off));
  }

  lemma {:induction false} CancelShows(s: State, t: nat, c: Choice) returns (e: Event)
    requires Inv(s) && t < |s.tasks| && Cancelling(s.tasks[t].pc)
    ensures Shows(s, Step(s, t, c), e)
    ensures By(View(s), t, e)
    ensures e.Quit? ==> s.tasks[t].pc.CancelFlip?
  {
    hide Inv, Shows, View, StepCancelFlip, StepCancelCheck;
    e := Stay;
    match s.tasks[t].pc
    case CancelWait(cv, side) =>
      GuardView(s, t, side, CancelHeld(cv, side));
      StayShows(s, Step(s, t, c));
    case CancelHeld(cv, side) =>
      GotoView(s, t, CancelLoad(cv, side));
      GotoView(s, t, CancelBack(cv, side, s.tasks[t].owner));
      StayShows(s, Step(s, t, c));
    case CancelBack(cv, side, owner) =>
      GuardView(s, t, side, CancelWait(cv, owner));
      StayShows(s, Step(s, t, c));
    case CancelLoad(cv, side) =>
      GotoView(s, t, CancelFlip(cv, side, Look(s, side)));
      StayShows(s, Step(s, t, c));
    case CancelFlip(cv, side, snap) => e := CancelFlipShows(s, t, c, cv, side, snap);
    case CancelCheck(cv) =>
      CancelCheckView(s, t, cv);
      StayShows(s, Step(s, t, c));
  }

  /** Every step of the machine is a step of the first-in first-out lock. */
  lemma {:induction false} StepShows(s: State, t: nat, c: Choice) returns (e: Event)
    requires Inv(s) && t < |s.tasks|
    ensures Shows(s, Step(s, t, c), e)
    ensures By(View(s), t, e)
    ensures e.Quit? ==> s.tasks[t].pc.CancelFlip?
  {
    hide Inv, Shows, View;
    var pc := s.tasks[t].pc;
    if Releasing(pc) || pc.UnlockLeave? {
      e := UnlockShows(s, t, c);
    } else if Notifying(pc) {
      e := NotifyShows(s, t, c);
    } else if Cancelling(pc) {
      e := CancelShows(s, t, c);
    } else if pc.Unimplemented? || pc.Crashed? {
      StayShows(s, s);
      e := Stay;
    } else {
      e := LockShows(s, t, c);
    }
  }

  const START := Fifo(None, [], [])

  /** At every moment of the run the machine shows what the log has made of the lock. */
  ghost predicate Tracks(tasks: nat, schedule: seq<(nat, Choice)>, log: seq<Event>)
  {
    && |log| == |schedule|
    && forall k :: 0 <= k <= |schedule| ==>
         Legal(START, log[..k]) && View(Run(Init(tasks), schedule[..k])) == Replay(START, log[..k])
  }

  lemma {:induction false} TracksOne(tasks: nat, schedule: seq<(nat, Choice)>, log: seq<Event>, e: Event)
    requires schedule != [] && Tracks(tasks, schedule[..|schedule| - 1], log) && Legal(START, log + [e])
    requires View(Run(Init(tasks), schedule)) == Replay(START, log + [e])
    ensures Tracks(tasks, schedule, log + [e])
  {
    hide Run, Init, View, Legal, Replay;
    var last := |schedule| - 1;
    forall k | 0 <= k <= |schedule|
      ensures Legal(START, (log + [e])[..k])
      ensures View(Run(Init(tasks), schedule[..k])) == Replay(START, (log + [e])[..k])
    {
      if k <= last {
        assert (log + [e])[..k] == log[..k];
        assert schedule[..last][..k] == schedule[..k];
      } else {
        assert (log + [e])[..k] == log + [e];
        assert schedule[..k] == schedule;
      }
    }
  }

  lemma {:induction false} TracksAll(tasks: nat, schedule: seq<(nat, Choice)>, log: seq<Event>)
    requires Tracks(tasks, schedule, log)
    ensures Legal(START, log) && View(Run(Init(tasks), schedule)) == Replay(START, log)
  {
    hide Run, Init, View, Legal, Replay;
    assert log[..|schedule|] == log;
    assert schedule[..|schedule|] == schedule;
  }

  /** Every run of the machine is, moment by moment, a run of the first-in first-out lock. */
  lemma {:induction false} RunShows(tasks: nat, schedule: seq<(nat, Choice)>) returns (log: seq<Event>)
    ensures Legal(START, log) && |log| == |schedule| && Acted(START, log, schedule)
    ensures Tracks(tasks, schedule, log)
    decreases |schedule|
  {
    hide Tracks, Acted, Inv, View, Apply, Allowed, By, Step;
    if schedule == [] {
      log := [];
      StartTracks(tasks);
    } else {
      var last := |schedule| - 1;
      log := RunShows(tasks, schedule[..last]);
      TracksAll(tasks, schedule[..last], log);
      RunKeeps(tasks, schedule[..last]);
      var p := Run(Init(tasks), schedule[..last]);
      var (t, c) := schedule[last];
      var e := Stay;
      if t < |p.tasks| {
        e := StepShows(p, t, c);
      } else {
        StayShows(p, p);
        StayBy(View(p), t);
      }
      ReplayOne(START, log, e);
      ActedOne(START, log, e, schedule);
      TracksOne(tasks, schedule, log, e);
      log := log + [e];
    }
  }

  lemma {:induction false} StayBy(a: Fifo, t: nat)
    ensures By(a, t, Stay)
  {
  }

  lemma {:induction false} StartTracks(tasks: nat)
    ensures Tracks(tasks, [], []) && Acted(START, [], [])
  {
    assert View(Init(tasks)) == START;
  }

  /** In other words: some legal log, with one event for every turn and each the act of the
    task whose turn it was, keeps the first-in first-out lock at what the machine shows,
    at every moment of the run. */
  lemma {:induction false} RunRefines(tasks: nat, schedule: seq<(nat, Choice)>)
    ensures exists log: seq<Event> ::
              && Legal(START, log)
              && |log| == |schedule| && Acted(START, log, schedule)
              && Tracks(tasks, schedule, log)
  {
    hide Run, Init, View, Acted, Replay, Legal, Tracks;
    var log := RunShows(tasks, schedule);
  }

  // ----- what a step does to other tasks -----

  /** What other tasks can do to a task: wake its waiter, or move it to the mutex. */
  predicate Touched(x: Task, y: Task)
  {
    && y.pc == x.pc
    && (y.slot == x.slot || (x.slot.Waiting? && y.slot.Done?))
    && (y.owner == x.owner || y.owner == OfMutex)
    && (y.home == x.home || y.home == OfMutex)
  }

  /** The step touches no task but u. */
  predicate Alone(s: State, s': State, u: nat)
    requires u < |s.tasks|
  {
    |s'.tasks| == |s.tasks| && s'.tasks == s.tasks[u := s'.tasks[u]]
  }

  lemma {:induction false} RehomeTouches(tasks: seq<Task>, list: seq<Waiter>, t: nat)
    requires t < |tasks|
    ensures var r := Rehome(tasks, list);
            && |r| == |tasks| && Touched(tasks[t], r[t]) && r[t].slot == tasks[t].slot
    decreases |list|
  {
    if list != [] {
      var k := list[0].task;
      RehomeTouches(if k < |tasks| then tasks[k := tasks[k].(home := OfMutex)] else tasks, list[1..], t);
    }
  }

  lemma {:induction false} LockMoves(s: State, u: nat, choice: Choice)
    requires u < |s.tasks|
    requires var pc := s.tasks[u].pc; pc.Idle? || pc.LockTry? || pc.Parked? || pc.Locked? || pc.WaitTry?
    ensures Alone(s, Step(s, u, choice), u)
  {
  }

  lemma {:induction false} UnlockMoves(s: State, u: nat, choice: Choice)
    requires u < |s.tasks|
    requires var pc := s.tasks[u].pc;
             || pc.UnlockShare? || pc.UnlockBorrow? || pc.UnlockPop? || pc.UnlockDecide? || pc.UnlockFree?
             || pc.UnlockRelock? || pc.HandDrop? || pc.UnlockLeave?
    ensures Alone(s, Step(s, u, choice), u)
  {
  }

  lemma {:induction false} NotifyMoves(s: State, u: nat, choice: Choice)
    requires u < |s.tasks|
    requires var pc := s.tasks[u].pc;
             || pc.NotifyShare? || pc.NotifyBorrow? || pc.NotifyTake? || pc.NotifyDrop? || pc.NotifyMutex?
             || pc.NotifyLeaveMutex? || pc.NotifyLeave?
    ensures Alone(s, Step(s, u, choice), u)
  {
  }

  lemma {:induction false} CancelMoves(s: State, u: nat, choice: Choice)
    requires u < |s.tasks|
    requires var pc := s.tasks[u].pc;
             || pc.CancelWait? || pc.CancelHeld? || pc.CancelBack? || pc.CancelLoad? || pc.CancelFlip?
             || pc.CancelCheck? || pc.Unimplemented? || pc.Crashed?
    ensures Alone(s, Step(s, u, choice), u)
  {
  }

  lemma {:induction false} WakeTouches(s: State, u: nat, w: Waiter, next: Pc, t: nat)
    requires u < |s.tasks| && t < |s.tasks| && t != u
    ensures var s' := Wake(s, u, w, next);
            |s'.tasks| == |s.tasks| && Touched(s.tasks[t], s'.tasks[t])
  {
  }

  lemma {:induction false} StoreTouches(s: State, u: nat, list: seq<Waiter>, stored: nat, t: nat)
    requires u < |s.tasks| && t < |s.tasks| && t != u
    ensures var s' := StepNotifyStore(s, u, list, stored);
            |s'.tasks| == |s.tasks| && Touched(s.tasks[t], s'.tasks[t])
  {
  }

  lemma {:induction false} PushTouches(s: State, u: nat, choice: Choice, list: seq<Waiter>, snap: Snap<nat>, t: nat)
    requires u < |s.tasks| && t < |s.tasks| && t != u
    ensures var s' := StepNotifyPush(s, u, choice, list, snap);
            |s'.tasks| == |s.tasks| && Touched(s.tasks[t], s'.tasks[t])
  {
    hide Rehome;
    RehomeTouches(s.tasks[u := s.tasks[u].(pc := NotifyLeaveMutex)], list, t);
  }

  /** A step of another task touches this one at most by waking or moving its waiter. */
  lemma {:induction false} StepOfOther(s: State, u: nat, choice: Choice, t: nat)
    requires u < |s.tasks| && t < |s.tasks| && u != t
    ensures var s' := Step(s, u, choice);
            |s'.tasks| == |s.tasks| && Touched(s.tasks[t], s'.tasks[t])
  {
    match s.tasks[u].pc
    case Idle | LockTry(_) | Parked(_) | Locked | WaitTry(_) =>
      hide Step;
      LockMoves(s, u, choice);
    case HandWake(cv, w) =>
      hide Wake;
      WakeTouches(s, u, w, UnlockLeave(cv), t);
    case NotifyStore(list, stored) =>
      hide StepNotifyStore;
      StoreTouches(s, u, list, stored, t);
    case NotifyPush(list, snap) =>
      hide StepNotifyPush;
      PushTouches(s, u, choice, list, snap, t);
    case NotifyShare(_, _) | NotifyBorrow(_, _) | NotifyTake(_, _) | NotifyDrop(_) | NotifyMutex(_)
      | NotifyLeaveMutex | NotifyLeave =>
      hide Step;
      NotifyMoves(s, u, choice);
    case CancelWait(_, _) | CancelHeld(_, _) | CancelBack(_, _, _) | CancelLoad(_, _) | CancelFlip(_, _, _)
      | CancelCheck(_) | Unimplemented | Crashed =>
      hide Step;
      CancelMoves(s, u, choice);
    case _ =>
      hide Step;
      UnlockMoves(s, u, choice);
  }

  // ----- nobody is overtaken -----

  predicate Before(line: seq<Waiter>, x: Waiter, y: Waiter)
  {
    exists i, j :: 0 <= i < j < |line| && line[i] == x && line[j] == y
  }

  /** The event hands the mutex to w. */
  predicate Grants(a: Fifo, e: Event, w: Waiter)
  {
    e == Release && a.line != [] && a.line[0] == w
  }

  lemma {:induction false} WithoutBefore(line: seq<Waiter>, w: Waiter, i: nat, j: nat)
    requires i < j < |line| && line[i] != w && line[j] != w
    ensures Before(Without(line, w), line[i], line[j])
  {
    if line[0] == w {
      var rest := Without(line, w);
      assert rest[i - 1] == line[i] && rest[j - 1] == line[j];
    } else if i > 0 {
      WithoutBefore(line[1..], w, i - 1, j - 1);
      var rest := Without(line[1..], w);
      var p, q :| 0 <= p < q < |rest| && rest[p] == line[i] && rest[q] == line[j];
      var all := Without(line, w);
      assert all[p + 1] == line[i] && all[q + 1] == line[j];
    } else {
      WithoutKeeps(line[1..], w, j - 1);
      var rest := Without(line[1..], w);
      var q :| 0 <= q < |rest| && rest[q] == line[j];
      var all := Without(line, w);
      assert all[0] == line[i] && all[q + 1] == line[j];
    }
  }

  lemma {:induction false} WithoutKeeps(line: seq<Waiter>, w: Waiter, j: nat)
    requires j < |line| && line[j] != w
    ensures line[j] in Without(line, w)
  {
    if line[0] == w {
      assert line[1..][j - 1] == line[j];
    } else if j > 0 {
      WithoutKeeps(line[1..], w, j - 1);
    }
  }

  /** Whatever happens, a waiter in line before another stays before it until it is
    granted the mutex itself or one of the two gives up. */
  lemma {:induction false} EventKeepsOrder(a: Fifo, e: Event, x: Waiter, y: Waiter)
    requires Allowed(a, e) && Before(a.line, x, y) && e != Quit(x) && e != Quit(y)
    ensures Grants(a, e, x) || Before(Apply(a, e).line, x, y)
    ensures Grants(a, e, x) ==> Apply(a, e).holder == Some(x.task)
  {
    var i, j :| 0 <= i < j < |a.line| && a.line[i] == x && a.line[j] == y;
    var line := Apply(a, e).line;
    match e
    case Quit(w) => WithoutBefore(a.line, w, i, j);
    case Release =>
      if i > 0 {
        assert line[i - 1] == x && line[j - 1] == y;
      }
    case Acquire(_) =>
    case Stay | Join(_) | Enter(_) | Move(_) => assert line[i] == x && line[j] == y;
  }

  /** The step hands the mutex to the waiter in front of the line. */
  predicate HandsTo(s: State, s': State, x: Waiter)
  {
    var line := View(s).line;
    line != [] && line[0] == x && View(s').holder == Some(x.task) && View(s').line == line[1..]
  }

  /** The task is at the point of leaving the line. */
  predicate Leaves(s: State, t: nat)
  {
    t < |s.tasks| && s.tasks[t].pc.CancelFlip?
  }

  lemma {:induction false} StepKeepsOrder(s: State, t: nat, c: Choice, x: Waiter, y: Waiter)
    requires Inv(s) && t < |s.tasks| && Before(View(s).line, x, y)
    requires Leaves(s, t) ==> t != x.task && t != y.task
    ensures Before(View(Step(s, t, c)).line, x, y) || HandsTo(s, Step(s, t, c), x)
  {
    hide Inv, View, Step, Before;
    var e := StepShows(s, t, c);
    EventKeepsOrder(View(s), e, x, y);
  }

  /** In any run, on anybody's turn: of two waiters in line the one in front stays in front
    until it is handed the mutex, unless it is the turn of one of the two to give up. */
  lemma {:induction false} NoOvertaking(tasks: nat, schedule: seq<(nat, Choice)>, t: nat, c: Choice, x: Waiter,
          y: Waiter)
    requires var s := Run(Init(tasks), schedule);
             t < |s.tasks| && Before(View(s).line, x, y) && (Leaves(s, t) ==> t != x.task && t != y.task)
    ensures var s := Run(Init(tasks), schedule);
            Before(View(Step(s, t, c)).line, x, y) || HandsTo(s, Step(s, t, c), x)
  {
    hide Run, Init, Inv, View, Step, Before;
    RunKeeps(tasks, schedule);
    StepKeepsOrder(Run(Init(tasks), schedule), t, c, x, y);
  }

  // ----- waiting in line over a whole run -----

  /** The task does not give up its wait in the turns to come. */
  predicate Patient(s: State, more: seq<(nat, Choice)>, t: nat)
  {
    && (t < |s.tasks| ==> !Cancelling(s.tasks[t].pc))
    && forall i :: 0 <= i < |more| && more[i].0 == t ==> !more[i].1.op.Cancel?
  }

  lemma {:induction false} LockOwnTurn(s: State, t: nat, choice: Choice)
    requires t < |s.tasks|
    requires var pc := s.tasks[t].pc; pc.Idle? || pc.LockTry? || pc.Parked? || pc.Locked? || pc.WaitTry?
    ensures |Step(s, t, choice).tasks| == |s.tasks|
    ensures choice.op.Cancel? || !Cancelling(Step(s, t, choice).tasks[t].pc)
  {
  }

  lemma {:induction false} UnlockOwnTurn(s: State, t: nat, choice: Choice)
    requires t < |s.tasks|
    requires var pc := s.tasks[t].pc;
             pc.UnlockShare? || pc.UnlockBorrow? || pc.UnlockRelock? || pc.HandDrop? || pc.HandWake? || pc.UnlockLeave?
    ensures |Step(s, t, choice).tasks| == |s.tasks| && !Cancelling(Step(s, t, choice).tasks[t].pc)
  {
  }

  lemma {:induction false} DecideOwnTurn(s: State, t: nat, choice: Choice)
    requires t < |s.tasks|
    requires s.tasks[t].pc.UnlockPop? || s.tasks[t].pc.UnlockDecide? || s.tasks[t].pc.UnlockFree?
    ensures |Step(s, t, choice).tasks| == |s.tasks| && !Cancelling(Step(s, t, choice).tasks[t].pc)
  {
    hide Front, Enqueue, Pop;
  }

  lemma {:induction false} NotifyOwnTurn(s: State, t: nat, choice: Choice)
    requires t < |s.tasks| && Notifying(s.tasks[t].pc)
    ensures |Step(s, t, choice).tasks| == |s.tasks| && !Cancelling(Step(s, t, choice).tasks[t].pc)
  {
    if s.tasks[t].pc.NotifyPush? {
      var list := s.tasks[t].pc.list;
      hide Rehome;
      RehomeTouches(s.tasks[t := s.tasks[t].(pc := NotifyLeaveMutex)], list, t);
    }
  }

  lemma {:induction false} CancelOwnTurn(s: State, t: nat, choice: Choice)
    requires t < |s.tasks| && (Cancelling(s.tasks[t].pc) || s.tasks[t].pc.Unimplemented? || s.tasks[t].pc.Crashed?)
    ensures |Step(s, t, choice).tasks| == |s.tasks|
    ensures Cancelling(s.tasks[t].pc) || !Cancelling(Step(s, t, choice).tasks[t].pc)
  {
    hide Enqueue, Unlink;
  }

  /** No task goes or comes, and nobody comes to cancel but by choosing to. */
  lemma {:induction false} OwnTurn(s: State, t: nat, choice: Choice)
    requires t < |s.tasks|
    ensures |Step(s, t, choice).tasks| == |s.tasks|
    ensures choice.op.Cancel? || Cancelling(s.tasks[t].pc) || !Cancelling(Step(s, t, choice).tasks[t].pc)
  {
    hide Step;
    var pc := s.tasks[t].pc;
    if pc.UnlockPop? || pc.UnlockDecide? || pc.UnlockFree? {
      DecideOwnTurn(s, t, choice);
    } else if Releasing(pc) || pc.UnlockLeave? {
      UnlockOwnTurn(s, t, choice);
    } else if Notifying(pc) {
      NotifyOwnTurn(s, t, choice);
    } else if Cancelling(pc) || pc.Unimplemented? || pc.Crashed? {
      CancelOwnTurn(s, t, choice);
    } else {
      LockOwnTurn(s, t, choice);
    }
  }

  lemma {:induction false} PatientOne(s: State, more: seq<(nat, Choice)>, t: nat)
    requires more != [] && Patient(s, more, t)
    ensures var (u, choice) := more[0];
            Patient(if u < |s.tasks| then Step(s, u, choice) else s, more[1..], t)
  {
    hide Step, Cancelling;
    var (u, choice) := more[0];
    forall i | 0 <= i < |more[1..]| && more[1..][i].0 == t
      ensures !more[1..][i].1.op.Cancel?
    {
      assert more[1..][i] == more[i + 1];
    }
    if u < |s.tasks| {
      OwnTurn(s, u, choice);
      if t < |s.tasks| && u != t {
        StepOfOther(s, u, choice, t);
      }
    }
  }

  predicate InLine(tasks: nat, schedule: seq<(nat, Choice)>, x: Waiter, y: Waiter)
  {
    Before(View(Run(Init(tasks), schedule)).line, x, y)
  }

  /** After the k-th of the turns x is in line before y, and so it was all the time. */
  ghost predicate Ahead(tasks: nat, schedule: seq<(nat, Choice)>, more: seq<(nat, Choice)>, k: nat, x: Waiter,
          y: Waiter)
  {
    k <= |more| && forall j :: 0 <= j <= k ==> InLine(tasks, schedule + more[..j], x, y)
  }

  /** The k-th of the turns hands the mutex to x. */
  predicate HandedAt(tasks: nat, schedule: seq<(nat, Choice)>, more: seq<(nat, Choice)>, k: nat, x: Waiter)
  {
    k < |more| && HandsTo(Run(Init(tasks), schedule + more[..k]), Run(Init(tasks), schedule + more[..k + 1]), x)
  }

  lemma {:induction false} RunOne(tasks: nat, schedule: seq<(nat, Choice)>, t: nat, c: Choice)
    ensures var p := Run(Init(tasks), schedule);
            Run(Init(tasks), schedule + [(t, c)]) == if t < |p.tasks| then Step(p, t, c) else p
  {
    hide Step;
    assert (schedule + [(t, c)])[..|schedule|] == schedule;
  }

  /** Over whole runs: of two waiters in line neither of which gives up, either the one in
    front is still in front after all the turns, or it was handed the mutex at one of
    them, and the one behind had been behind it all the time until then. */
  lemma {:induction false} ServedInOrder(tasks: nat, schedule: seq<(nat, Choice)>, more: seq<(nat, Choice)>,
          x: Waiter, y: Waiter)
    requires InLine(tasks, schedule, x, y)
    requires var s := Run(Init(tasks), schedule); Patient(s, more, x.task) && Patient(s, more, y.task)
    ensures || Ahead(tasks, schedule, more, |more|, x, y)
            || exists k: nat :: Ahead(tasks, schedule, more, k, x, y) && HandedAt(tasks, schedule, more, k, x)
    decreases |more|
  {
    hide Run, Init, InLine, HandsTo, Patient, Step;
    assert schedule + more[..0] == schedule;
    if more != [] {
      var (t, c) := more[0];
      var next := schedule + more[..1];
      assert more[..1] == [(t, c)];
      RunOne(tasks, schedule, t, c);
      PatientOne(Run(Init(tasks), schedule), more, x.task);
      PatientOne(Run(Init(tasks), schedule), more, y.task);
      FirstTurn(tasks, schedule, more, x, y);
      if HandedAt(tasks, schedule, more, 0, x) {
        assert Ahead(tasks, schedule, more, 0, x, y);
      } else {
        ServedInOrder(tasks, next, more[1..], x, y);
        if Ahead(tasks, next, more[1..], |more| - 1, x, y) {
          AheadFirst(tasks, schedule, more, |more| - 1, x, y);
        } else {
          var k: nat :| Ahead(tasks, next, more[1..], k, x, y) && HandedAt(tasks, next, more[1..], k, x);
          AheadFirst(tasks, schedule, more, k, x, y);
          TurnsShift(schedule, more, k);
          TurnsShift(schedule, more, k + 1);
          assert HandedAt(tasks, schedule, more, k + 1, x);
        }
      }
    }
  }

  lemma {:induction false} TurnsShift(schedule: seq<(nat, Choice)>, more: seq<(nat, Choice)>, k: nat)
    requires k < |more|
    ensures schedule + more[..1] + more[1..][..k] == schedule + more[..k + 1]
  {
    assert more[..1] + more[1..][..k] == more[..k + 1];
  }

  lemma {:induction false} AheadFirst(tasks: nat, schedule: seq<(nat, Choice)>, more: seq<(nat, Choice)>, k: nat,
        x: Waiter, y: Waiter)
    requires more != [] && InLine(tasks, schedule, x, y) && Ahead(tasks, schedule + more[..1], more[1..], k, x, y)
    ensures Ahead(tasks, schedule, more, k + 1, x, y)
  {
    hide InLine;
    forall j | 0 <= j <= k + 1
      ensures InLine(tasks, schedule + more[..j], x, y)
    {
      if j == 0 {
        assert schedule + more[..0] == schedule;
      } else {
        TurnsShift(schedule, more, j - 1);
      }
    }
  }

  /** A patient waiter is not at the point of leaving the line. */
  lemma {:induction false} FirstTurn(tasks: nat, schedule: seq<(nat, Choice)>, more: seq<(nat, Choice)>, x: Waiter,
          y: Waiter)
    requires more != [] && InLine(tasks, schedule, x, y)
    requires var s := Run(Init(tasks), schedule); Patient(s, more, x.task) && Patient(s, more, y.task)
    ensures InLine(tasks, schedule + more[..1], x, y) || HandedAt(tasks, schedule, more, 0, x)
  {
    hide Run, Init, Inv, View, Step, Before, HandsTo;
    var (t, c) := more[0];
    assert more[..1] == [(t, c)];
    assert schedule + more[..0] == schedule;
    RunOne(tasks, schedule, t, c);
    var s := Run(Init(tasks), schedule);
    if t < |s.tasks| {
      NoOvertaking(tasks, schedule, t, c, x, y);
    }
  }

  // ----- what the mutex and the condition variable promise -----

  /** A mutex that is not locked has nobody waiting for it. */
  lemma {:induction false} FreeIsEmpty(tasks: nat, schedule: seq<(nat, Choice)>)
    requires Run(Init(tasks), schedule).word == 0
    ensures Lists(Run(Init(tasks), schedule).m) == multiset{}
  {
    hide Run, Init;
    RunKeeps(tasks, schedule);
    var s := Run(Init(tasks), schedule);
    Lawfuls(s, OfMutex);
    GatherEmpty(s.m.queues, AsMultiset);
  }

  /** Whenever the mutex comes to belong to a task, either nobody was waiting and the task
    has just asked for it, or it was handed to the waiter in front of the line. */
  lemma {:induction false} GrantedInOrder(tasks: nat, schedule: seq<(nat, Choice)>, t: nat, c: Choice)
    requires var s := Run(Init(tasks), schedule);
             t < |s.tasks| && View(Step(s, t, c)).holder.Some? && View(Step(s, t, c)).holder != View(s).holder
    ensures var s := Run(Init(tasks), schedule);
            if View(s).line == [] then
              View(s).holder.None? && View(Step(s, t, c)).holder == Some(t)
            else
              HandsTo(s, Step(s, t, c), View(s).line[0])
  {
    hide Run, Init, Inv, View, Step;
    RunKeeps(tasks, schedule);
    var e := StepShows(Run(Init(tasks), schedule), t, c);
  }

  /** At most one task owns the mutex: as guard, in unlock, woken but not polled yet, or
    cancelled after being woken. */
  lemma {:induction false} OneOwner(tasks: nat, schedule: seq<(nat, Choice)>, i: nat, j: nat)
    requires var s := Run(Init(tasks), schedule);
             i < |s.tasks| && j < |s.tasks| && HasToken(s.tasks[i]) && HasToken(s.tasks[j])
    ensures i == j && Run(Init(tasks), schedule).word == 1
  {
    RunKeeps(tasks, schedule);
    var s := Run(Init(tasks), schedule);
    TokenWord(s, i);
    TokenWord(s, j);
  }

  /** No assertion, unwrap, panic or second borrow of the code is ever reached. */
  lemma {:induction false} NeverCrashes(tasks: nat, schedule: seq<(nat, Choice)>, i: nat)
    requires i < |Run(Init(tasks), schedule).tasks|
    ensures !Run(Init(tasks), schedule).tasks[i].pc.Crashed?
  {
    RunKeeps(tasks, schedule);
    TaskAt(Run(Init(tasks), schedule), i);
  }

  /** A sleeping waiter is in exactly one list, counted over both futexes and every hand,
    and that list belongs to the futex it is accounted to. */
  lemma {:induction false} OnePlace(tasks: nat, schedule: seq<(nat, Choice)>, i: nat)
    requires var s := Run(Init(tasks), schedule); i < |s.tasks| && Sleeps(s.tasks[i])
    ensures var s := Run(Init(tasks), schedule);
            var home := s.tasks[i].home;
            && Listed(Of(s, home), Parts(home, s.tasks))[Waiter(i, 0)] == 1
            && Listed(Of(s, Other(home)), Parts(Other(home), s.tasks))[Waiter(i, 0)] == 0
  {
    hide Run, Init, Inv, Sleeps, Listed, Parts, Of;
    var s := Run(Init(tasks), schedule);
    RunKeeps(tasks, schedule);
    SleeperListed(s, i);
  }

  lemma {:induction false} SleeperListed(s: State, i: nat)
    requires Inv(s) && i < |s.tasks| && Sleeps(s.tasks[i])
    ensures var home := s.tasks[i].home;
            && Listed(Of(s, home), Parts(home, s.tasks))[Waiter(i, 0)] == 1
            && Listed(Of(s, Other(home)), Parts(Other(home), s.tasks))[Waiter(i, 0)] == 0
  {
    hide Local, Owned, Token, Listed, Of;
    var home := s.tasks[i].home;
    Lawfuls(s, home);
    assert Waits(Parts(home, s.tasks), Waiter(i, 0));
    assert !Waits(Parts(Other(home), s.tasks), Waiter(i, 0));
  }

  /** A task sleeps for the mutex only while another one owns it. */
  lemma {:induction false} NoLostWakeup(tasks: nat, schedule: seq<(nat, Choice)>, i: nat) returns (k: nat)
    requires var s := Run(Init(tasks), schedule); i < |s.tasks| && Sleeps(s.tasks[i]) && s.tasks[i].home == OfMutex
    ensures var s := Run(Init(tasks), schedule);
            k < |s.tasks| && k != i && HasToken(s.tasks[k])
  {
    RunKeeps(tasks, schedule);
    var s := Run(Init(tasks), schedule);
    SleeperHasOwner(s, i);
    SleeperNoToken(s, i);
    k := s.carrier.value;
  }

  lemma {:induction false} SleeperNoToken(s: State, i: nat)
    requires Inv(s) && i < |s.tasks| && Sleeps(s.tasks[i]) && s.tasks[i].home == OfMutex
    ensures !HasToken(s.tasks[i])
  {
    hide Inv;
    TaskAt(s, i);
  }

  lemma {:induction false} SleeperHasOwner(s: State, i: nat)
    requires Inv(s) && i < |s.tasks| && Sleeps(s.tasks[i]) && s.tasks[i].home == OfMutex
    ensures s.carrier.Some?
  {
    if s.carrier.None? {
      var parts := Parts(OfMutex, s.tasks);
      forall k | 0 <= k < |parts|
        ensures HandOf(parts[k]) == multiset{}
      {
        assert !HasToken(s.tasks[k]);
      }
      Counting.GatherEmpty(parts, HandOf);
      SleeperFound(s.m, parts, i);
    }
  }

  /** notify(count) takes exactly the first min(count, waiting) waiters of the room, in
    order, and wakes nobody. */
  lemma {:induction false} NotifyTakesFirst(tasks: nat, schedule: seq<(nat, Choice)>, t: nat, c: Choice)
    requires var s := Run(Init(tasks), schedule);
             t < |s.tasks| && s.tasks[t].pc.NotifyTake? && !c.spurious && s.tasks[t].pc.snap == Condvar(s)
    ensures var s := Run(Init(tasks), schedule);
            var room := View(s).room;
            var s' := Step(s, t, c);
            && s'.tasks[t].pc == NotifyDrop(room[..Min(s.tasks[t].pc.count, |room|)])
            && forall i :: 0 <= i < |s.tasks| ==> s'.tasks[i].slot == s.tasks[i].slot
  {
    hide Run, Init, Inv, View, Enqueue, Pop;
    var s := Run(Init(tasks), schedule);
    RunKeeps(tasks, schedule);
    var count := s.tasks[t].pc.count;
    RoomLine(s);
    OneRoom(s);
    NotifyTakeView(s, t, Min(count, |Enqueue(s.c).queues[0]|));
  }

  lemma {:induction false} OneRoom(s: State)
    requires Inv(s)
    ensures |s.c.queues| == 1
  {
    hide Local, Owned, Token, Lawful;
    Lawfuls(s, OfCondvar);
  }

  predicate SameSlots(x: seq<Task>, y: seq<Task>)
  {
    |x| == |y| && forall i :: 0 <= i < |x| ==> y[i].slot == x[i].slot
  }

  lemma {:induction false} PushAppends(s: State, t: nat, list: seq<Waiter>, snap: Snap<nat>)
    requires Inv(s) && t < |s.tasks| && s.tasks[t].pc == NotifyPush(list, snap)
    ensures var s' := Pushed(s, t, list);
            && View(s').line == View(s).line + list && View(s).room == list + View(s').room
            && SameSlots(s.tasks, s'.tasks)
  {
    hide Inv, View, Rehome;
    PushView(s, t, list, snap);
    RehomeSlots(s.tasks[t := s.tasks[t].(pc := NotifyLeaveMutex)], list);
    assert View(s).room == View(s).room[..|list|] + View(s).room[|list|..];
  }

  /** Publishing the list appends exactly these waiters, in order, to the line, takes them
    out of the room, and wakes nobody. */
  lemma {:induction false} NotifyAppends(tasks: nat, schedule: seq<(nat, Choice)>, t: nat, c: Choice)
    requires var s := Run(Init(tasks), schedule);
             t < |s.tasks| && s.tasks[t].pc.NotifyPush? && !c.spurious && s.tasks[t].pc.snap == Mutex(s)
    ensures var s := Run(Init(tasks), schedule);
            var list := s.tasks[t].pc.list;
            var s' := Step(s, t, c);
            && View(s').line == View(s).line + list && View(s).room == list + View(s').room
            && SameSlots(s.tasks, s'.tasks)
  {
    hide Run, Init, Inv, View, SameSlots;
    RunKeeps(tasks, schedule);
    var s := Run(Init(tasks), schedule);
    PushAppends(s, t, s.tasks[t].pc.list, s.tasks[t].pc.snap);
  }

  lemma {:induction false} RehomeSlots(tasks: seq<Task>, list: seq<Waiter>)
    ensures |Rehome(tasks, list)| == |tasks|
    ensures forall i :: 0 <= i < |tasks| ==> Rehome(tasks, list)[i].slot == tasks[i].slot
    decreases |list|
  {
    if list != [] {
      var k := list[0].task;
      RehomeSlots(if k < |tasks| then tasks[k := tasks[k].(home := OfMutex)] else tasks, list[1..]);
    }
  }

  /** lock and wait return exactly when the mutex belongs to the task. */
  lemma {:induction false} WaitReturnsOwner(tasks: nat, schedule: seq<(nat, Choice)>, t: nat, c: Choice)
    requires var s := Run(Init(tasks), schedule); t < |s.tasks| && s.tasks[t].pc.Parked? && !c.op.Cancel?
    ensures var s := Run(Init(tasks), schedule);
            Step(s, t, c).tasks[t].pc.Locked? <==> s.carrier == Some(t)
  {
    RunKeeps(tasks, schedule);
    TaskAt(Run(Init(tasks), schedule), t);
  }
}
