/** One token of ownership, exact waiting lists on both futexes and strict
  first-in first-out hand-off, kept by every step of the fair mutex and the condition
  variable, cancellation and requeueing included.
 */
module FairMutexProof {
  import opened FairMutex
  import opened Futex
  import opened FutexLaws
  import opened Options

  // ----- what a task holds -----

  /** Unlocking, up to the point where the right to the mutex is given away. */
  predicate Releasing(pc: Pc)
  {
    || pc.UnlockShare? || pc.UnlockBorrow? || pc.UnlockPop? || pc.UnlockDecide?
    || pc.UnlockFree? || pc.UnlockRelock? || pc.HandDrop? || pc.HandWake?
  }

  predicate Notifying(pc: Pc)
  {
    || pc.NotifyShare? || pc.NotifyBorrow? || pc.NotifyTake? || pc.NotifyDrop? || pc.NotifyMutex?
    || pc.NotifyStore? || pc.NotifyPush? || pc.NotifyLeaveMutex? || pc.NotifyLeave?
  }

  predicate Cancelling(pc: Pc)
  {
    || pc.CancelWait? || pc.CancelHeld? || pc.CancelBack? || pc.CancelLoad? || pc.CancelFlip? || pc.CancelCheck?
  }

  /** The right to the mutex: from lock or wake-up to hand-over. */
  predicate HasToken(x: Task)
  {
    || x.pc.Locked? || x.pc.WaitTry? || Releasing(x.pc) || Notifying(x.pc)
    || ((x.pc.Parked? || x.pc.UnlockLeave? || Cancelling(x.pc)) && x.slot.Done?)
  }

  /** The program counter is inside a wait, so the waker slot is in use. */
  predicate InWait(pc: Pc)
  {
    pc.Parked? || Cancelling(pc) || ((Releasing(pc) || pc.UnlockLeave?) && pc.cv)
  }

  predicate Sleeps(x: Task)
  {
    x.slot.Waiting? && !x.pc.CancelCheck?
  }

  function HandAt(side: Side, pc: Pc): seq<Waiter>
  {
    match pc
    case HandDrop(_, w) => if side.OfMutex? then [w] else []
    case HandWake(_, w) => if side.OfMutex? then [w] else []
    case NotifyDrop(list) => if side.OfCondvar? then list else []
    case NotifyMutex(list) => if side.OfCondvar? then list else []
    case NotifyStore(list, _) => if side.OfCondvar? then list else []
    case NotifyPush(list, _) => if side.OfCondvar? then list else []
    case _ => []
  }

  predicate GuardAt(side: Side, pc: Pc)
  {
    match side
    case OfMutex =>
      || (Releasing(pc) && !pc.UnlockShare?) || pc.UnlockLeave?
      || pc.NotifyStore? || pc.NotifyPush? || pc.NotifyLeaveMutex?
    case OfCondvar => Notifying(pc) && !pc.NotifyShare?
  }

  predicate BorrowAt(side: Side, pc: Pc)
  {
    match side
    case OfMutex => pc.UnlockPop? || pc.UnlockDecide? || pc.HandDrop?
    case OfCondvar => pc.NotifyTake? || pc.NotifyDrop?
  }

  predicate ExclusiveAt(side: Side, pc: Pc)
  {
    (pc.CancelHeld? || pc.CancelBack? || pc.CancelLoad? || pc.CancelFlip?) && pc.side == side
  }

  function One(b: bool): nat
  {
    if b then 1 else 0
  }

  /** The task's part in the futex of a side. */
  function PartOf(side: Side, x: Task): Part
  {
    Part(if Sleeps(x) && x.home == side then Some(0) else None,
         HandAt(side, x.pc),
         One(GuardAt(side, x.pc)),
         One(BorrowAt(side, x.pc)),
         One(ExclusiveAt(side, x.pc)),
         x.pc.CancelFlip? && x.pc.side == side && x.pc.snap.inbox.None?)
  }

  function Parts(side: Side, tasks: seq<Task>): (r: seq<Part>)
    ensures |r| == |tasks|
    ensures forall i :: 0 <= i < |r| ==> r[i] == PartOf(side, tasks[i])
  {
    seq(|tasks|, i requires 0 <= i < |tasks| => PartOf(side, tasks[i]))
  }

  lemma {:induction false} PartsUpdate(side: Side, tasks: seq<Task>, t: nat, x: Task)
    requires t < |tasks|
    ensures Parts(side, tasks[t := x]) == Parts(side, tasks)[t := PartOf(side, x)]
  {
  }

  // ----- the invariant -----

  ghost predicate Law(s: State, side: Side)
  {
    Lawful(Of(s, side), Parts(side, s.tasks)) && |Of(s, side).queues| == 1
  }

  /** One task has the right to the mutex exactly if the word says locked. */
  predicate Token(s: State)
  {
    && (s.carrier.Some? ==> s.carrier.value < |s.tasks|)
    && s.word == One(s.carrier.Some?)
    && s.used <= 1
    && forall i :: 0 <= i < |s.tasks| ==> (HasToken(s.tasks[i]) <==> s.carrier == Some(i))
  }

  /** A free mutex has no waiters. */
  predicate Free(s: State)
  {
    s.carrier.None? ==> s.m.inbox == [] && Front(s.m) == []
  }

  predicate ReliesOnQuiet(pc: Pc)
  {
    pc.UnlockDecide? || pc.UnlockFree? || pc.UnlockRelock?
  }

  /** What holds at single program points; quiet says that the mutex's queue is empty. */
  predicate TaskOk(quiet: bool, x: Task)
  {
    && (x.slot.Off? <==> !InWait(x.pc))
    && (Releasing(x.pc) && x.pc.cv ==> x.slot.Waiting? && x.home == x.owner == OfCondvar)
    && ((x.pc.Parked? || Cancelling(x.pc)) && !x.pc.cv && x.slot.Waiting? ==> x.home == x.owner == OfMutex)
    && (ReliesOnQuiet(x.pc) ==> quiet)
    && (x.pc.UnlockFree? ==> x.pc.snap.inbox.None?)
    && (x.pc.WaitTry? ==> x.pc.snap.word <= 1)
    && (x.pc.NotifyStore? ==> x.pc.list != [] && x.pc.stored <= |x.pc.list|)
    && (x.pc.NotifyPush? ==> x.pc.list != [])
    && (x.pc.CancelLoad? || x.pc.CancelFlip? ==> x.owner == x.pc.side && (x.slot.Waiting? ==> x.home == x.owner))
    && !x.pc.Crashed?
  }

  predicate Local(quiet: bool, tasks: seq<Task>)
  {
    forall i :: 0 <= i < |tasks| ==> TaskOk(quiet, tasks[i])
  }

  /** The waiters that notify has told their new owner but not published yet. */
  function Stored(pc: Pc): seq<Waiter>
  {
    match pc
    case NotifyStore(list, stored) => if stored <= |list| then list[..stored] else []
    case NotifyPush(list, _) => list
    case _ => []
  }

  function InTransit(tasks: seq<Task>, carrier: Option<nat>): seq<Waiter>
  {
    if carrier.Some? && carrier.value < |tasks| then Stored(tasks[carrier.value].pc) else []
  }

  /** A waiter's owner is the futex it is accounted to, except while it is in transit. */
  predicate Owned(tasks: seq<Task>, transit: seq<Waiter>)
  {
    && (forall i :: 0 <= i < |tasks| && Sleeps(tasks[i]) && tasks[i].owner != tasks[i].home ==> Waiter(i, 0) in transit)
    && (forall w :: w in transit ==> w.task < |tasks| && tasks[w.task].owner == OfMutex)
  }

  ghost predicate Inv(s: State)
  {
    && Law(s, OfMutex) && Law(s, OfCondvar)
    && Token(s) && Free(s)
    && Local(Front(s.m) == [], s.tasks)
    && Owned(s.tasks, InTransit(s.tasks, s.carrier))
  }

  // ----- reading the invariant -----

  lemma {:induction false} TaskAt(s: State, t: nat)
    requires Inv(s) && t < |s.tasks|
    ensures TaskOk(Front(s.m) == [], s.tasks[t])
    ensures HasToken(s.tasks[t]) <==> s.carrier == Some(t)
  {
  }

  /** The carrier is alone. */
  lemma {:induction false} Alone(s: State, t: nat)
    requires Token(s) && t < |s.tasks| && HasToken(s.tasks[t])
    ensures s.carrier == Some(t) && s.word == 1
    ensures forall i :: 0 <= i < |s.tasks| && i != t ==> !HasToken(s.tasks[i])
  {
  }

  // ----- steps of one task that move no waiter -----

  lemma {:induction false} TurnToken(s: State, s': State, t: nat, x: Task)
    requires Token(s) && t < |s.tasks| && s'.tasks == s.tasks[t := x]
    requires s'.word == s.word && s'.carrier == s.carrier && s'.used == s.used
    requires HasToken(x) == HasToken(s.tasks[t])
    ensures Token(s')
  {
  }

  lemma {:induction false} TurnLocal(quiet: bool, tasks: seq<Task>, t: nat, x: Task)
    requires Local(quiet, tasks) && t < |tasks| && TaskOk(quiet, x)
    ensures Local(quiet, tasks[t := x])
  {
  }

  predicate SameWait(x: Task, y: Task)
  {
    Sleeps(x) == Sleeps(y) && x.owner == y.owner && x.home == y.home
  }

  lemma {:induction false} TurnOwned(tasks: seq<Task>, transit: seq<Waiter>, t: nat, x: Task)
    requires Owned(tasks, transit) && t < |tasks| && SameWait(x, tasks[t])
    ensures Owned(tasks[t := x], transit)
  {
  }

  lemma {:induction false} TurnTransit(tasks: seq<Task>, carrier: Option<nat>, t: nat, x: Task)
    requires t < |tasks| && Stored(x.pc) == Stored(tasks[t].pc)
    ensures InTransit(tasks[t := x], carrier) == InTransit(tasks, carrier)
  {
  }

  /** One task turns to another program point and at most the locks of one futex change. */
  lemma {:induction false} TurnKeeps(s: State, s': State, t: nat, side: Side, f: Futex, x: Task)
    requires Inv(s) && t < |s.tasks|
    requires s' == With(s, side, f).(tasks := s.tasks[t := x])
    requires f.inbox == Of(s, side).inbox && f.queues == Of(s, side).queues
    requires Lawful(f, Parts(side, s.tasks)[t := PartOf(side, x)])
    requires Lawful(Of(s, Other(side)), Parts(Other(side), s.tasks)[t := PartOf(Other(side), x)])
    requires HasToken(x) == HasToken(s.tasks[t]) && SameWait(x, s.tasks[t]) && Stored(x.pc) == Stored(s.tasks[t].pc)
    requires TaskOk(Front(s.m) == [], x)
    ensures Inv(s')
  {
    hide Lawful, Token, Local, Owned, TaskOk, HasToken, InTransit, SameWait, Stored;
    PartsUpdate(side, s.tasks, t, x);
    PartsUpdate(Other(side), s.tasks, t, x);
    TurnToken(s, s', t, x);
    TurnLocal(Front(s.m) == [], s.tasks, t, x);
    TurnTransit(s.tasks, s.carrier, t, x);
    TurnOwned(s.tasks, InTransit(s.tasks, s.carrier), t, x);
  }

  function Other(side: Side): Side
  {
    match side case OfMutex => OfCondvar case OfCondvar => OfMutex
  }

  lemma {:induction false} Lawfuls(s: State, side: Side)
    requires Inv(s)
    ensures Law(s, side) && Law(s, Other(side))
  {
  }

  /** The task's part in a futex may lose nothing but the memory of an empty inbox. */
  predicate SamePart(f: Futex, part: Part, next: Part)
  {
    next == part.(away := next.away) && (next.away ==> part.away || f.inbox == [])
  }

  lemma {:induction false} StayKeeps(s: State, t: nat, x: Task)
    requires Inv(s) && t < |s.tasks|
    requires SamePart(s.m, PartOf(OfMutex, s.tasks[t]), PartOf(OfMutex, x))
    requires SamePart(s.c, PartOf(OfCondvar, s.tasks[t]), PartOf(OfCondvar, x))
    requires HasToken(x) == HasToken(s.tasks[t]) && SameWait(x, s.tasks[t]) && Stored(x.pc) == Stored(s.tasks[t].pc)
    requires TaskOk(Front(s.m) == [], x)
    ensures Inv(s.(tasks := s.tasks[t := x]))
  {
    hide Inv, Lawful, PartOf, TaskOk, HasToken, SameWait, Stored;
    Lawfuls(s, OfMutex);
    StayLaw(s.m, Parts(OfMutex, s.tasks), t, PartOf(OfMutex, x));
    StayLaw(s.c, Parts(OfCondvar, s.tasks), t, PartOf(OfCondvar, x));
    TurnKeeps(s, s.(tasks := s.tasks[t := x]), t, OfMutex, s.m, x);
  }

  /** The two tasks differ in nothing but a lock of one side. */
  predicate Relock(quiet: bool, side: Side, x: Task, y: Task)
  {
    && PartOf(Other(side), y) == PartOf(Other(side), x)
    && HasToken(y) == HasToken(x) && SameWait(y, x) && Stored(y.pc) == Stored(x.pc)
    && TaskOk(quiet, y)
  }

  /** A lock of one futex is taken or released. */
  lemma {:induction false} LockKeeps(s: State, t: nat, side: Side, f: Futex, next: Pc)
    requires Inv(s) && t < |s.tasks|
    requires f.inbox == Of(s, side).inbox && f.queues == Of(s, side).queues
    requires Lawful(f, Parts(side, s.tasks)[t := PartOf(side, s.tasks[t].(pc := next))])
    requires Relock(Front(s.m) == [], side, s.tasks[t], s.tasks[t].(pc := next))
    ensures Inv(With(Goto(s, t, next), side, f))
  {
    hide Inv, Lawful, PartOf, TaskOk, HasToken, SameWait, Stored;
    Lawfuls(s, side);
    var x := s.tasks[t].(pc := next);
    StayLaw(Of(s, Other(side)), Parts(Other(side), s.tasks), t, PartOf(Other(side), x));
    TurnKeeps(s, With(Goto(s, t, next), side, f), t, side, f, x);
  }

  lemma {:induction false} ShareKeeps(s: State, t: nat, side: Side, next: Pc)
    requires Inv(s) && t < |s.tasks|
    requires Relock(Front(s.m) == [], side, s.tasks[t], s.tasks[t].(pc := next))
    requires PartOf(side, s.tasks[t].(pc := next))
             == PartOf(side, s.tasks[t]).(guard := PartOf(side, s.tasks[t]).guard + 1)
    ensures Inv(ShareGuard(s, t, side, next))
  {
    hide Inv, Lawful, PartOf, Relock;
    Lawfuls(s, side);
    if !Of(s, side).exclusive {
      ShareLaw(Of(s, side), Parts(side, s.tasks), t);
      LockKeeps(s, t, side, Share(Of(s, side)), next);
    }
  }

  lemma {:induction false} UnshareKeeps(s: State, t: nat, side: Side, next: Pc)
    requires Inv(s) && t < |s.tasks|
    requires Relock(Front(s.m) == [], side, s.tasks[t], s.tasks[t].(pc := next))
    requires PartOf(side, s.tasks[t]).guard == 1 && PartOf(side, s.tasks[t]).hand == [] &&
        PartOf(side, s.tasks[t]).borrow == 0
    requires PartOf(side, s.tasks[t].(pc := next)) == PartOf(side, s.tasks[t]).(guard := 0)
    ensures Inv(UnshareGuard(s, t, side, next))
  {
    hide Inv, Lawful, PartOf, Relock;
    Lawfuls(s, side);
    UnshareLaw(Of(s, side), Parts(side, s.tasks), t);
    LockKeeps(s, t, side, Unshare(Of(s, side)), next);
  }

  /** Only the carrier ever borrows a queue. */
  lemma {:induction false} NobodyBorrows(s: State, t: nat, side: Side)
    requires Inv(s) && t < |s.tasks| && HasToken(s.tasks[t]) && PartOf(side, s.tasks[t]).borrow == 0
    ensures forall i :: 0 <= i < |s.tasks| ==> Parts(side, s.tasks)[i].borrow == 0
  {
    forall i | 0 <= i < |s.tasks|
      ensures !BorrowAt(side, s.tasks[i].pc)
    {
      assert i != t ==> !HasToken(s.tasks[i]);
    }
  }

  lemma {:induction false} BorrowKeeps(s: State, t: nat, side: Side, next: Pc)
    requires Inv(s) && t < |s.tasks| && HasToken(s.tasks[t])
    requires Relock(Front(s.m) == [], side, s.tasks[t], s.tasks[t].(pc := next))
    requires PartOf(side, s.tasks[t]).guard == 1 && PartOf(side, s.tasks[t]).borrow == 0
    requires PartOf(side, s.tasks[t].(pc := next)) == PartOf(side, s.tasks[t]).(borrow := 1)
    ensures !Of(s, side).borrowed
    ensures Inv(Borrow(s, t, side, next))
  {
    hide Inv, Lawful, PartOf, Relock;
    Lawfuls(s, side);
    NobodyBorrows(s, t, side);
    TakeBorrowLaw(Of(s, side), Parts(side, s.tasks), t);
    LockKeeps(s, t, side, TakeBorrow(Of(s, side)), next);
  }

  lemma {:induction false} ReturnKeeps(s: State, t: nat, side: Side, next: Pc)
    requires Inv(s) && t < |s.tasks|
    requires Relock(Front(s.m) == [], side, s.tasks[t], s.tasks[t].(pc := next))
    requires PartOf(side, s.tasks[t]).borrow == 1
    requires PartOf(side, s.tasks[t].(pc := next)) == PartOf(side, s.tasks[t]).(borrow := 0)
    ensures Inv(Return(s, t, side, next))
  {
    hide Inv, Lawful, PartOf, Relock;
    Lawfuls(s, side);
    DropBorrowLaw(Of(s, side), Parts(side, s.tasks), t);
    LockKeeps(s, t, side, DropBorrow(Of(s, side)), next);
  }

  lemma {:induction false} ExcludeKeeps(s: State, t: nat, side: Side, next: Pc)
    requires Inv(s) && t < |s.tasks| && !Of(s, side).exclusive && Of(s, side).guards == 0
    requires Relock(Front(s.m) == [], side, s.tasks[t], s.tasks[t].(pc := next))
    requires PartOf(side, s.tasks[t]).exclusive == 0
    requires PartOf(side, s.tasks[t].(pc := next)) == PartOf(side, s.tasks[t]).(exclusive := 1)
    ensures Inv(With(Goto(s, t, next), side, Exclude(Of(s, side))))
  {
    hide Inv, Lawful, PartOf, Relock;
    Lawfuls(s, side);
    ExcludeLaw(Of(s, side), Parts(side, s.tasks), t);
    LockKeeps(s, t, side, Exclude(Of(s, side)), next);
  }

  lemma {:induction false} IncludeKeeps(s: State, t: nat, side: Side, next: Pc)
    requires Inv(s) && t < |s.tasks|
    requires Relock(Front(s.m) == [], side, s.tasks[t], s.tasks[t].(pc := next))
    requires PartOf(side, s.tasks[t]).exclusive == 1
    requires PartOf(side, s.tasks[t].(pc := next)) == PartOf(side, s.tasks[t]).(exclusive := 0)
    ensures Inv(With(Goto(s, t, next), side, Include(Of(s, side))))
  {
    hide Inv, Lawful, PartOf, Relock;
    Lawfuls(s, side);
    IncludeLaw(Of(s, side), Parts(side, s.tasks), t);
    LockKeeps(s, t, side, Include(Of(s, side)), next);
  }

  // ----- lock -----

  lemma {:induction false} AcquireToken(s: State, t: nat, x: Task)
    requires Token(s) && t < |s.tasks| && s.word == 0 && HasToken(x)
    ensures Token(s.(word := 1, carrier := Some(t), tasks := s.tasks[t := x]))
  {
  }

  /** A free mutex is taken without waiting. */
  lemma {:induction false} AcquireKeeps(s: State, t: nat, snap: Snap<nat>)
    requires Inv(s) && t < |s.tasks| && s.tasks[t].pc == LockTry(snap) && s.word == 0
    ensures Inv(Goto(s, t, Locked).(word := 1, carrier := Some(t)))
  {
    hide Lawful, Local, Owned;
    var x := s.tasks[t].(pc := Locked);
    TaskAtLocal(s, t);
    StayLaw(s.m, Parts(OfMutex, s.tasks), t, PartOf(OfMutex, x));
    StayLaw(s.c, Parts(OfCondvar, s.tasks), t, PartOf(OfCondvar, x));
    PartsUpdate(OfMutex, s.tasks, t, x);
    PartsUpdate(OfCondvar, s.tasks, t, x);
    AcquireToken(s, t, x);
    TurnLocal(Front(s.m) == [], s.tasks, t, x);
    TurnOwned(s.tasks, [], t, x);
  }

  lemma {:induction false} TaskAtLocal(s: State, t: nat)
    requires Local(Front(s.m) == [], s.tasks) && t < |s.tasks|
    ensures TaskOk(Front(s.m) == [], s.tasks[t])
  {
  }

  lemma {:induction false} ParkOwned(tasks: seq<Task>, transit: seq<Waiter>, t: nat, x: Task)
    requires Owned(tasks, transit) && t < |tasks| && x.owner == x.home
    requires x.owner == OfMutex || forall w :: w in transit ==> w.task != t
    ensures Owned(tasks[t := x], transit)
  {
  }

  /** A wait takes effect: the task sleeps on top of the inbox of a futex. */
  lemma {:induction false} ParkKeeps(s: State, t: nat, side: Side, next: Pc)
    requires Inv(s) && t < |s.tasks| && s.word == 1
    requires Parks(s.tasks[t].pc, side, next)
    ensures Inv(Park(s, t, side, next))
  {
    hide Law, Token, Local, Owned, TaskOk, HasToken, InTransit, Stored, Parks;
    TaskAt(s, t);
    var x := Task(next, Waiting, side, side);
    ParkFacts(Front(s.m) == [], s.tasks[t], side, next);
    ParkTransit(s, t, side, next);
    ParkLaws(s, t, side, next);
    TurnToken(s, Park(s, t, side, next), t, x);
    TurnLocal(Front(s.m) == [], s.tasks, t, x);
    TurnTransit(s.tasks, s.carrier, t, x);
    ParkOwned(s.tasks, InTransit(s.tasks, s.carrier), t, x);
    ParkFree(s, t, side, next);
  }

  lemma {:induction false} ParkLaws(s: State, t: nat, side: Side, next: Pc)
    requires Inv(s) && t < |s.tasks| && Parks(s.tasks[t].pc, side, next)
    ensures Law(Park(s, t, side, next), OfMutex) && Law(Park(s, t, side, next), OfCondvar)
  {
    hide Inv, Lawful, TaskOk, HasToken, PartOf, Stored, Parks;
    TaskAt(s, t);
    Lawfuls(s, side);
    var x := Task(next, Waiting, side, side);
    ParkFacts(Front(s.m) == [], s.tasks[t], side, next);
    ParkLaw(Of(s, side), Parts(side, s.tasks), t, 0, PartOf(side, x));
    StayLaw(Of(s, Other(side)), Parts(Other(side), s.tasks), t, PartOf(Other(side), x));
    PartsUpdate(side, s.tasks, t, x);
    PartsUpdate(Other(side), s.tasks, t, x);
  }

  predicate Parks(pc: Pc, side: Side, next: Pc)
  {
    || (pc.LockTry? && side == OfMutex && next == Parked(false))
    || (pc.WaitTry? && side == OfCondvar && next == UnlockShare(true))
  }

  lemma {:induction false} ParkFacts(quiet: bool, x: Task, side: Side, next: Pc)
    requires TaskOk(quiet, x) && Parks(x.pc, side, next)
    ensures var y := Task(next, Waiting, side, side);
            && PartOf(side, x).waits.None? && PartOf(side, x).hand == [] && !PartOf(side, x).away
            && PartOf(side, y) == PartOf(side, x).(waits := Some(0))
            && PartOf(Other(side), y) == PartOf(Other(side), x)
            && HasToken(y) == HasToken(x) && Stored(y.pc) == Stored(x.pc) && TaskOk(quiet, y)
  {
  }

  lemma {:induction false} ParkFree(s: State, t: nat, side: Side, next: Pc)
    requires Token(s) && t < |s.tasks| && s.word == 1
    ensures Free(Park(s, t, side, next)) && Front(Park(s, t, side, next).m) == Front(s.m)
  {
  }

  /** While a task calls wait nothing is in transit. */
  lemma {:induction false} ParkTransit(s: State, t: nat, side: Side, next: Pc)
    requires Inv(s) && t < |s.tasks| && Parks(s.tasks[t].pc, side, next)
    ensures side == OfMutex || forall w :: w in InTransit(s.tasks, s.carrier) ==> w.task != t
  {
    if side == OfCondvar {
      Alone(s, t);
    }
  }

  lemma {:induction false} LockTryKeeps(s: State, t: nat, c: Choice, snap: Snap<nat>)
    requires Inv(s) && t < |s.tasks| && s.tasks[t].pc == LockTry(snap)
    ensures Inv(StepLockTry(s, t, c, snap))
  {
    WordIsBit(s);
    if c.spurious || snap != Mutex(s) {
      LookKeeps(s, t, LockTry(Mutex(s)));
    } else if snap.word == 0 {
      AcquireKeeps(s, t, snap);
    } else {
      ParkKeeps(s, t, OfMutex, Parked(false));
      hide Inv;
      var s' := Park(s, t, OfMutex, Parked(false));
      assert s'.(word := 1) == s';
    }
  }

  /** Looking again at an atomic word. */
  lemma {:induction false} LookKeeps(s: State, t: nat, next: Pc)
    requires Inv(s) && t < |s.tasks| && Looks(Front(s.m) == [], s.tasks[t].pc, next)
    ensures Inv(Goto(s, t, next))
  {
    hide Inv, TaskOk, PartOf, HasToken, SameWait, Stored, Looks;
    TaskAt(s, t);
    LookFacts(Front(s.m) == [], s.tasks[t], s.tasks[t].(pc := next));
    StayKeeps(s, t, s.tasks[t].(pc := next));
  }

  predicate Looks(quiet: bool, pc: Pc, next: Pc)
  {
    || (pc.LockTry? && next.LockTry?)
    || (pc.WaitTry? && next.WaitTry? && next.snap.word <= 1)
    || (pc.UnlockPop? && next.UnlockDecide? && next.cv == pc.cv && quiet)
    || (pc.UnlockDecide? && next.UnlockDecide? && next.cv == pc.cv)
    || (pc.UnlockFree? && next.UnlockRelock? && next.cv == pc.cv)
    || (pc.NotifyTake? && next.NotifyTake?)
    || (pc.NotifyPush? && next.NotifyPush? && next.list == pc.list)
  }

  lemma {:induction false} LookFacts(quiet: bool, x: Task, y: Task)
    requires TaskOk(quiet, x) && Looks(quiet, x.pc, y.pc) && y == x.(pc := y.pc)
    ensures PartOf(OfMutex, y) == PartOf(OfMutex, x) && PartOf(OfCondvar, y) == PartOf(OfCondvar, x)
    ensures HasToken(y) == HasToken(x) && SameWait(y, x) && Stored(y.pc) == Stored(x.pc) && TaskOk(quiet, y)
  {
  }

  lemma {:induction false} WordIsBit(s: State)
    requires Inv(s)
    ensures s.word <= 1 && s.used <= 1
  {
  }

  lemma {:induction false} UsedKeeps(s: State)
    requires Inv(s)
    ensures Inv(s.(used := 1))
  {
    hide Lawful, Local, Owned;
  }

  lemma {:induction false} WaitTryKeeps(s: State, t: nat, c: Choice, snap: Snap<nat>)
    requires Inv(s) && t < |s.tasks| && s.tasks[t].pc == WaitTry(snap)
    ensures Inv(StepWaitTry(s, t, c, snap))
  {
    hide Inv, TaskOk;
    TaskAt(s, t);
    WordIsBit(s);
    TokenWord(s, t);
    if c.spurious || snap != Condvar(s) {
      LookKeeps(s, t, WaitTry(Condvar(s)));
    } else {
      ParkKeeps(s, t, OfCondvar, UnlockShare(true));
      UsedKeeps(Park(s, t, OfCondvar, UnlockShare(true)));
    }
  }

  lemma {:induction false} TokenWord(s: State, t: nat)
    requires Inv(s) && t < |s.tasks| && HasToken(s.tasks[t])
    ensures s.word == 1 && s.carrier == Some(t)
  {
  }

  lemma {:induction false} WakerWord(s: State, t: nat)
    requires Inv(s) && t < |s.tasks| && (Releasing(s.tasks[t].pc) || Notifying(s.tasks[t].pc))
    ensures s.word == 1 && s.carrier == Some(t)
  {
    TokenWord(s, t);
  }

  // ----- unlock -----

  /** The queue of the mutex changes under its only user. */
  lemma {:induction false} CarrierLocal(s: State, t: nat, quiet: bool, x: Task)
    requires Token(s) && Local(Front(s.m) == [], s.tasks) && t < |s.tasks| && HasToken(s.tasks[t])
    requires TaskOk(quiet, x)
    ensures Local(quiet, s.tasks[t := x])
  {
    forall i | 0 <= i < |s.tasks| && i != t
      ensures TaskOk(quiet, s.tasks[i])
    {
      assert !HasToken(s.tasks[i]);
    }
  }

  lemma {:induction false} TakeLaw(s: State, t: nat, cv: bool, f: Futex, x: Task)
    requires Inv(s) && t < |s.tasks| && (s.tasks[t].pc.UnlockPop? || s.tasks[t].pc.UnlockDecide?)
    requires s.tasks[t].pc.cv == cv
    requires f == s.m || f == Enqueue(s.m)
    requires Front(f) != [] && x == s.tasks[t].(pc := HandDrop(cv, f.queues[0][0]))
    ensures Law(Take(s, t, cv, f), OfMutex)
  {
    TaskAt(s, t);
    var parts := Parts(OfMutex, s.tasks);
    EnqueueLaw(s.m, parts);
    assert f.queues[0][..1] == [f.queues[0][0]];
    PopLaw(f, parts, t, 0, 1, PartOf(OfMutex, x));
    PartsUpdate(OfMutex, s.tasks, t, x);
  }

  /** The first waiter is popped into the hand. */
  lemma {:induction false} TakeKeeps(s: State, t: nat, cv: bool, f: Futex)
    requires Inv(s) && t < |s.tasks| && (s.tasks[t].pc.UnlockPop? || s.tasks[t].pc.UnlockDecide?)
    requires s.tasks[t].pc.cv == cv && (f == s.m || f == Enqueue(s.m)) && Front(f) != []
    ensures Inv(Take(s, t, cv, f))
  {
    hide Lawful, Token, Local, Owned, TaskOk, HasToken, PartOf, InTransit, SameWait, Stored;
    TaskAt(s, t);
    var s' := Take(s, t, cv, f);
    var x := s.tasks[t].(pc := HandDrop(cv, f.queues[0][0]));
    TakeLaw(s, t, cv, f, x);
    TakeFacts(Front(s.m) == [], Front(s'.m) == [], s.tasks[t], x);
    TokenWord(s, t);
    StayLaw(s.c, Parts(OfCondvar, s.tasks), t, PartOf(OfCondvar, x));
    PartsUpdate(OfCondvar, s.tasks, t, x);
    TurnToken(s, s', t, x);
    CarrierLocal(s, t, Front(s'.m) == [], x);
    TurnTransit(s.tasks, s.carrier, t, x);
    TurnOwned(s.tasks, InTransit(s.tasks, s.carrier), t, x);
  }

  lemma {:induction false} TakeFacts(quiet: bool, quiet': bool, x: Task, y: Task)
    requires TaskOk(quiet, x) && (x.pc.UnlockPop? || x.pc.UnlockDecide?)
    requires y.pc.HandDrop? && y.pc.cv == x.pc.cv && y == x.(pc := y.pc)
    ensures PartOf(OfCondvar, y) == PartOf(OfCondvar, x)
    ensures HasToken(y) && HasToken(x) && SameWait(y, x) && Stored(y.pc) == Stored(x.pc) && TaskOk(quiet', y)
  {
  }

  lemma {:induction false} SeenInbox(s: State)
    requires Inv(s) && Mutex(s).inbox.Some?
    ensures Front(Enqueue(s.m)) == Front(s.m) + s.m.inbox && Front(Enqueue(s.m)) != []
  {
    SingleQueue(s.m, Parts(OfMutex, s.tasks));
  }

  lemma {:induction false} UnlockDecideKeeps(s: State, t: nat, c: Choice, cv: bool, snap: Snap<nat>)
    requires Inv(s) && t < |s.tasks| && s.tasks[t].pc == UnlockDecide(cv, snap)
    ensures Inv(StepUnlockDecide(s, t, c, cv, snap))
  {
    if snap.inbox.None? {
      TaskAt(s, t);
      hide Inv;
      ReturnKeeps(s, t, OfMutex, UnlockFree(cv, snap));
    } else if !c.spurious && snap == Mutex(s) {
      DecideTakes(s, t, cv, snap);
    } else {
      hide Inv;
      LookKeeps(s, t, UnlockDecide(cv, Mutex(s)));
    }
  }

  lemma {:induction false} DecideTakes(s: State, t: nat, cv: bool, snap: Snap<nat>)
    requires Inv(s) && t < |s.tasks| && s.tasks[t].pc == UnlockDecide(cv, snap)
    requires snap == Mutex(s) && snap.inbox.Some?
    ensures Inv(Take(s, t, cv, Enqueue(s.m)).(word := 1))
  {
    hide Inv;
    SeenInbox(s);
    TokenWord(s, t);
    TakeKeeps(s, t, cv, Enqueue(s.m));
    var s' := Take(s, t, cv, Enqueue(s.m));
    assert s'.(word := 1) == s';
  }

  lemma {:induction false} FreeToken(s: State, t: nat, x: Task)
    requires Token(s) && t < |s.tasks| && HasToken(s.tasks[t]) && !HasToken(x)
    ensures Token(s.(word := 0, carrier := None, tasks := s.tasks[t := x]))
  {
  }

  /** With queue and inbox empty the mutex becomes free. */
  lemma {:induction false} FreeKeeps(s: State, t: nat, cv: bool, snap: Snap<nat>)
    requires Inv(s) && t < |s.tasks| && s.tasks[t].pc == UnlockFree(cv, snap) && snap == Mutex(s)
    ensures Inv(Goto(s, t, UnlockLeave(cv)).(word := 0, carrier := None))
  {
    hide Lawful, Token, Local, Owned, TaskOk, HasToken, PartOf, SameWait;
    TaskAt(s, t);
    WakerWord(s, t);
    var x := s.tasks[t].(pc := UnlockLeave(cv));
    FreeFacts(Front(s.m) == [], s.tasks[t], x);
    StayLaw(s.m, Parts(OfMutex, s.tasks), t, PartOf(OfMutex, x));
    StayLaw(s.c, Parts(OfCondvar, s.tasks), t, PartOf(OfCondvar, x));
    PartsUpdate(OfMutex, s.tasks, t, x);
    PartsUpdate(OfCondvar, s.tasks, t, x);
    FreeToken(s, t, x);
    TurnLocal(Front(s.m) == [], s.tasks, t, x);
    TurnOwned(s.tasks, [], t, x);
  }

  lemma {:induction false} FreeFacts(quiet: bool, x: Task, y: Task)
    requires TaskOk(quiet, x) && x.pc.UnlockFree? && y == x.(pc := UnlockLeave(x.pc.cv))
    ensures PartOf(OfMutex, y) == PartOf(OfMutex, x) && PartOf(OfCondvar, y) == PartOf(OfCondvar, x)
    ensures HasToken(x) && !HasToken(y) && SameWait(y, x) && TaskOk(quiet, y)
    ensures quiet && x.pc.snap.inbox.None?
  {
  }

  lemma {:induction false} UnlockFreeKeeps(s: State, t: nat, c: Choice, cv: bool, snap: Snap<nat>)
    requires Inv(s) && t < |s.tasks| && s.tasks[t].pc == UnlockFree(cv, snap)
    ensures Inv(StepUnlockFree(s, t, c, cv, snap))
  {
    hide Inv;
    if !c.spurious && snap == Mutex(s) {
      FreeKeeps(s, t, cv, snap);
    } else {
      LookKeeps(s, t, UnlockRelock(cv, Mutex(s)));
    }
  }

  /** A task that sleeps while another carries the token takes the token when woken. */
  lemma {:induction false} WokenHolds(quiet: bool, y: Task)
    requires Sleeps(y) && TaskOk(quiet, y) && !HasToken(y)
    ensures var awake := y.(slot := Done);
            && HasToken(awake) && TaskOk(quiet, awake) && Stored(awake.pc) == []
            && PartOf(OfMutex, awake) == PartOf(OfMutex, y).(waits := None)
            && (y.home.OfMutex? ==> PartOf(OfCondvar, awake) == PartOf(OfCondvar, y))
  {
  }

  lemma {:induction false} WakeToken(s: State, t: nat, x: Task, k: nat, awake: Task)
    requires Token(s) && t < |s.tasks| && k < |s.tasks| && k != t
    requires HasToken(s.tasks[t]) && !HasToken(x) && HasToken(awake)
    ensures Token(s.(tasks := s.tasks[t := x][k := awake], carrier := Some(k)))
  {
    Alone(s, t);
  }

  lemma {:induction false} WakeOwned(tasks: seq<Task>, t: nat, x: Task, k: nat, awake: Task)
    requires Owned(tasks, []) && t < |tasks| && k < |tasks| && SameWait(x, tasks[t]) && !Sleeps(awake)
    ensures Owned(tasks[t := x][k := awake], [])
  {
  }

  lemma {:induction false} WakeLawful(s: State, t: nat, w: Waiter, x: Task, awake: Task)
    requires Law(s, OfMutex) && Law(s, OfCondvar) && t < |s.tasks| && w.task < |s.tasks| && w.task != t
    requires PartOf(OfMutex, s.tasks[t]).hand == [w]
    requires PartOf(OfMutex, x) == PartOf(OfMutex, s.tasks[t]).(hand := [])
    requires PartOf(OfMutex, awake) == PartOf(OfMutex, s.tasks[w.task]).(waits := None)
    requires PartOf(OfCondvar, x) == PartOf(OfCondvar, s.tasks[t])
    requires PartOf(OfCondvar, awake) == PartOf(OfCondvar, s.tasks[w.task])
    ensures Law(s.(tasks := s.tasks[t := x][w.task := awake]), OfMutex)
    ensures Law(s.(tasks := s.tasks[t := x][w.task := awake]), OfCondvar)
  {
    hide Lawful, PartOf;
    WakeLaw(s.m, Parts(OfMutex, s.tasks), t, PartOf(OfMutex, x), PartOf(OfMutex, awake));
    PartsUpdate(OfMutex, s.tasks, t, x);
    PartsUpdate(OfMutex, s.tasks[t := x], w.task, awake);
    PartsUpdate(OfCondvar, s.tasks, t, x);
    PartsUpdate(OfCondvar, s.tasks[t := x], w.task, awake);
    assert Parts(OfCondvar, s.tasks[t := x][w.task := awake]) == Parts(OfCondvar, s.tasks);
  }

  /** The waiter in hand sleeps for the mutex, so waking it succeeds and hands it the token. */
  lemma {:induction false} HandAsleep(s: State, t: nat, cv: bool, w: Waiter)
    requires Inv(s) && t < |s.tasks| && s.tasks[t].pc == HandWake(cv, w)
    ensures w.task < |s.tasks| && w.task != t && Sleeps(s.tasks[w.task]) && s.tasks[w.task].home == OfMutex
    ensures !HasToken(s.tasks[w.task])
  {
    assert PartOf(OfMutex, s.tasks[t]).hand[0] == w;
    HandSleeps(s.m, Parts(OfMutex, s.tasks), t);
    Alone(s, t);
  }

  lemma {:induction false} WakeKeeps(s: State, t: nat, cv: bool, w: Waiter)
    requires Inv(s) && t < |s.tasks| && s.tasks[t].pc == HandWake(cv, w)
    ensures Inv(Wake(s, t, w, UnlockLeave(cv)))
  {
    hide Lawful, Token, Local, Owned, TaskOk, HasToken, PartOf, SameWait, InTransit, Stored;
    TaskAt(s, t);
    HandAsleep(s, t, cv, w);
    TaskAt(s, w.task);
    WokenHolds(Front(s.m) == [], s.tasks[w.task]);
    WakerWord(s, t);
    var x, awake := s.tasks[t].(pc := UnlockLeave(cv)), s.tasks[w.task].(slot := Done);
    WakerFacts(Front(s.m) == [], s.tasks[t], x, w);
    WakeTransit(s, t, w, x);
    WakeLawful(s, t, w, x, awake);
    WakeToken(s, t, x, w.task, awake);
    TurnLocal(Front(s.m) == [], s.tasks, t, x);
    TurnLocal(Front(s.m) == [], s.tasks[t := x], w.task, awake);
    WakeOwned(s.tasks, t, x, w.task, awake);
  }

  lemma {:induction false} WakerFacts(quiet: bool, x: Task, y: Task, w: Waiter)
    requires TaskOk(quiet, x) && x.pc.HandWake? && x.pc.w == w && y == x.(pc := UnlockLeave(x.pc.cv))
    ensures PartOf(OfMutex, x).hand == [w] && PartOf(OfMutex, y) == PartOf(OfMutex, x).(hand := [])
    ensures PartOf(OfCondvar, y) == PartOf(OfCondvar, x)
    ensures HasToken(x) && !HasToken(y) && SameWait(y, x) && TaskOk(quiet, y)
  {
  }

  lemma {:induction false} WakeTransit(s: State, t: nat, w: Waiter, x: Task)
    requires t < |s.tasks| && s.tasks[t].pc.HandWake? && s.carrier == Some(t)
    requires w.task < |s.tasks| && Stored(s.tasks[w.task].pc) == []
    ensures InTransit(s.tasks, s.carrier) == []
    ensures InTransit(s.tasks[t := x][w.task := s.tasks[w.task].(slot := Done)], Some(w.task)) == []
  {
  }

  // ----- notify -----

  lemma {:induction false} NotifyTakeFacts(quiet: bool, x: Task, y: Task)
    requires TaskOk(quiet, x) && x.pc.NotifyTake? && y.pc.NotifyDrop? && y == x.(pc := y.pc)
    ensures PartOf(OfMutex, y) == PartOf(OfMutex, x)
    ensures PartOf(OfCondvar, x).hand == [] && PartOf(OfCondvar, x).waits.None? && PartOf(OfCondvar, x).guard == 1
    ensures PartOf(OfCondvar, y) == PartOf(OfCondvar, x).(hand := y.pc.list)
    ensures HasToken(y) && HasToken(x) && SameWait(y, x) && Stored(y.pc) == Stored(x.pc) && TaskOk(quiet, y)
  {
  }

  lemma {:induction false} NotifyTakeLaw(s: State, t: nat, n: nat, x: Task)
    requires Law(s, OfCondvar) && t < |s.tasks| && n <= |Enqueue(s.c).queues[0]|
    requires var part := PartOf(OfCondvar, s.tasks[t]);
             && part.hand == [] && part.waits.None? && part.guard == 1
             && PartOf(OfCondvar, x) == part.(hand := Enqueue(s.c).queues[0][..n])
    ensures Lawful(Pop(Enqueue(s.c), 0, n), Parts(OfCondvar, s.tasks[t := x]))
  {
    hide Lawful, PartOf;
    EnqueueLaw(s.c, Parts(OfCondvar, s.tasks));
    PopLaw(Enqueue(s.c), Parts(OfCondvar, s.tasks), t, 0, n, PartOf(OfCondvar, x));
    PartsUpdate(OfCondvar, s.tasks, t, x);
  }

  lemma {:induction false} SingleRoom(s: State)
    requires Inv(s)
    ensures |s.c.queues| == 1 && |Enqueue(s.c).queues| == 1
  {
  }

  /** The first waiters of the condition variable are taken into the hand. */
  lemma {:induction false} NotifyPops(s: State, t: nat, n: nat)
    requires Inv(s) && t < |s.tasks| && s.tasks[t].pc.NotifyTake? && n <= |Enqueue(s.c).queues[0]|
    ensures Inv(Goto(s, t, NotifyDrop(Enqueue(s.c).queues[0][..n])).(c := Pop(Enqueue(s.c), 0, n)))
  {
    hide Law, Token, Local, Owned, TaskOk, HasToken, PartOf, InTransit, SameWait, Stored;
    TaskAt(s, t);
    SingleRoom(s);
    var x := s.tasks[t].(pc := NotifyDrop(Enqueue(s.c).queues[0][..n]));
    var s' := s.(tasks := s.tasks[t := x], c := Pop(Enqueue(s.c), 0, n));
    NotifyTakeFacts(Front(s.m) == [], s.tasks[t], x);
    NotifyPopLaws(s, t, n, x);
    TurnToken(s, s', t, x);
    TurnLocal(Front(s.m) == [], s.tasks, t, x);
    TurnTransit(s.tasks, s.carrier, t, x);
    TurnOwned(s.tasks, InTransit(s.tasks, s.carrier), t, x);
  }

  lemma {:induction false} NotifyPopLaws(s: State, t: nat, n: nat, x: Task)
    requires Inv(s) && t < |s.tasks| && s.tasks[t].pc.NotifyTake? && n <= |Enqueue(s.c).queues[0]|
    requires x == s.tasks[t].(pc := NotifyDrop(Enqueue(s.c).queues[0][..n]))
    ensures var s' := s.(tasks := s.tasks[t := x], c := Pop(Enqueue(s.c), 0, n));
            Law(s', OfMutex) && Law(s', OfCondvar)
  {
    hide Inv, Lawful, TaskOk, HasToken, PartOf, SameWait, Stored;
    TaskAt(s, t);
    NotifyTakeFacts(Front(s.m) == [], s.tasks[t], x);
    Lawfuls(s, OfMutex);
    NotifyTakeLaw(s, t, n, x);
    StayLaw(s.m, Parts(OfMutex, s.tasks), t, PartOf(OfMutex, x));
    PartsUpdate(OfMutex, s.tasks, t, x);
  }

  lemma {:induction false} NotifyTakeKeeps(s: State, t: nat, c: Choice, snap: Snap<nat>, count: nat)
    requires Inv(s) && t < |s.tasks| && s.tasks[t].pc == NotifyTake(snap, count)
    ensures Inv(StepNotifyTake(s, t, c, snap, count))
  {
    hide Inv;
    if c.spurious || snap != Condvar(s) || |s.c.queues| == 0 {
      LookKeeps(s, t, NotifyTake(Condvar(s), count));
    } else {
      var n := Min(count, |Enqueue(s.c).queues[0]|);
      NotifyPops(s, t, n);
      UsedKeeps(Goto(s, t, NotifyDrop(Enqueue(s.c).queues[0][..n])).(c := Pop(Enqueue(s.c), 0, n)));
    }
  }

  /** What is known of a waiter in the list of a notifier: it sleeps, accounted to the
    condition variable, has no token and does not hold either futex to cancel. */
  predicate Movable(s: State, t: nat, w: Waiter)
  {
    && w.task < |s.tasks| && w.task != t && w.queue == 0
    && Sleeps(s.tasks[w.task]) && s.tasks[w.task].home == OfCondvar && !HasToken(s.tasks[w.task])
    && !ExclusiveAt(OfMutex, s.tasks[w.task].pc) && !ExclusiveAt(OfCondvar, s.tasks[w.task].pc)
  }

  lemma {:induction false} ListMovable(s: State, t: nat, w: Waiter)
    requires Inv(s) && t < |s.tasks| && (s.tasks[t].pc.NotifyStore? || s.tasks[t].pc.NotifyPush?)
    requires w in s.tasks[t].pc.list
    ensures Movable(s, t, w)
  {
    assert PartOf(OfCondvar, s.tasks[t]).hand == s.tasks[t].pc.list;
    HandWaits(s.c, Parts(OfCondvar, s.tasks), t, w);
    Alone(s, t);
    NoCanceller(s, t, w.task, OfMutex);
    NoCanceller(s, t, w.task, OfCondvar);
  }

  /** While a task holds the shared guard of a futex nobody holds it to cancel. */
  lemma {:induction false} NoCanceller(s: State, t: nat, k: nat, side: Side)
    requires Law(s, side) && t < |s.tasks| && k < |s.tasks| && GuardAt(side, s.tasks[t].pc)
    ensures !ExclusiveAt(side, s.tasks[k].pc)
  {
    GuardShares(Of(s, side), Parts(side, s.tasks), t);
    if ExclusiveAt(side, s.tasks[k].pc) {
      ExclusiveAlone(Of(s, side), Parts(side, s.tasks), k);
    }
  }

  /** Telling a movable waiter its new owner changes nothing it relies on. */
  lemma {:induction false} StoreFacts(quiet: bool, y: Task)
    requires TaskOk(quiet, y) && Sleeps(y) && y.home == OfCondvar && !HasToken(y)
    requires !ExclusiveAt(OfMutex, y.pc) && !ExclusiveAt(OfCondvar, y.pc)
    ensures var z := y.(owner := OfMutex);
            && PartOf(OfMutex, z) == PartOf(OfMutex, y) && PartOf(OfCondvar, z) == PartOf(OfCondvar, y)
            && HasToken(z) == HasToken(y) && TaskOk(quiet, z)
  {
  }

  lemma {:induction false} StoreOwned(tasks: seq<Task>, list: seq<Waiter>, stored: nat, t: nat, x: Task)
    requires t < |tasks| && stored < |list| && Owned(tasks, list[..stored]) && SameWait(x, tasks[t])
    requires list[stored].task < |tasks| && list[stored].task != t && list[stored].queue == 0
    ensures var k := list[stored].task;
            Owned(tasks[k := tasks[k].(owner := OfMutex)][t := x], list[..stored + 1])
  {
    assert list[..stored + 1] == list[..stored] + [list[stored]];
  }

  lemma {:induction false} StoreTasks(s: State, t: nat, k: nat, y: Task)
    requires Law(s, OfMutex) && Law(s, OfCondvar) && Token(s) && Local(Front(s.m) == [], s.tasks) && k < |s.tasks|
    requires PartOf(OfMutex, y) == PartOf(OfMutex, s.tasks[k]) && PartOf(OfCondvar, y) == PartOf(OfCondvar, s.tasks[k])
    requires HasToken(y) == HasToken(s.tasks[k]) && TaskOk(Front(s.m) == [], y)
    ensures var s' := s.(tasks := s.tasks[k := y]);
            Law(s', OfMutex) && Law(s', OfCondvar) && Token(s') && Local(Front(s'.m) == [], s'.tasks)
  {
    hide Lawful, Token, Local, TaskOk, HasToken, PartOf;
    PartsUpdate(OfMutex, s.tasks, k, y);
    PartsUpdate(OfCondvar, s.tasks, k, y);
    assert Parts(OfMutex, s.tasks[k := y]) == Parts(OfMutex, s.tasks);
    assert Parts(OfCondvar, s.tasks[k := y]) == Parts(OfCondvar, s.tasks);
    TurnToken(s, s.(tasks := s.tasks[k := y]), k, y);
    TurnLocal(Front(s.m) == [], s.tasks, k, y);
  }

  lemma {:induction false} StorerFacts(quiet: bool, x: Task, y: Task)
    requires TaskOk(quiet, x) && x.pc.NotifyStore? && x.pc.stored < |x.pc.list|
    requires y == x.(pc := NotifyStore(x.pc.list, x.pc.stored + 1))
    ensures PartOf(OfMutex, y) == PartOf(OfMutex, x) && PartOf(OfCondvar, y) == PartOf(OfCondvar, x)
    ensures HasToken(y) && HasToken(x) && SameWait(y, x) && TaskOk(quiet, y)
    ensures Stored(x.pc) == x.pc.list[..x.pc.stored] && Stored(y.pc) == x.pc.list[..x.pc.stored + 1]
  {
  }

  lemma {:induction false} StoreTransit(s: State, t: nat, k: nat, y: Task, x: Task)
    requires t < |s.tasks| && k < |s.tasks| && k != t && s.carrier == Some(t)
    ensures InTransit(s.tasks, s.carrier) == Stored(s.tasks[t].pc)
    ensures InTransit(s.tasks[k := y][t := x], s.carrier) == Stored(x.pc)
  {
  }

  lemma {:induction false} StoreKeeps(s: State, t: nat, list: seq<Waiter>, stored: nat)
    requires Inv(s) && t < |s.tasks| && s.tasks[t].pc == NotifyStore(list, stored) && stored < |list|
    ensures Inv(StepNotifyStore(s, t, list, stored))
  {
    hide Law, Token, Local, Owned, TaskOk, HasToken, PartOf, InTransit, SameWait, Stored;
    TaskAt(s, t);
    ListMovable(s, t, list[stored]);
    WakerWord(s, t);
    var k := list[stored].task;
    var x, y := s.tasks[t].(pc := NotifyStore(list, stored + 1)), s.tasks[k].(owner := OfMutex);
    TaskAt(s, k);
    StoreFacts(Front(s.m) == [], s.tasks[k]);
    StorerFacts(Front(s.m) == [], s.tasks[t], x);
    StoreTransit(s, t, k, y, x);
    StoreTasks(s, t, k, y);
    StoreTasks(s.(tasks := s.tasks[k := y]), t, t, x);
    StoreOwned(s.tasks, list, stored, t, x);
  }

  lemma {:induction false} StoredFacts(quiet: bool, x: Task, y: Task)
    requires TaskOk(quiet, x) && x.pc.NotifyStore? && x.pc.stored == |x.pc.list|
    requires y.pc.NotifyPush? && y.pc.list == x.pc.list && y == x.(pc := y.pc)
    ensures PartOf(OfMutex, y) == PartOf(OfMutex, x) && PartOf(OfCondvar, y) == PartOf(OfCondvar, x)
    ensures HasToken(y) == HasToken(x) && SameWait(y, x) && TaskOk(quiet, y) && Stored(y.pc) == Stored(x.pc)
  {
    assert x.pc.list[..|x.pc.list|] == x.pc.list;
  }

  lemma {:induction false} NotifyStoreKeeps(s: State, t: nat, list: seq<Waiter>, stored: nat)
    requires Inv(s) && t < |s.tasks| && s.tasks[t].pc == NotifyStore(list, stored)
    ensures Inv(StepNotifyStore(s, t, list, stored))
  {
    hide Inv;
    TaskAt(s, t);
    if stored < |list| {
      StoreKeeps(s, t, list, stored);
    } else {
      var x := s.tasks[t].(pc := NotifyPush(list, Mutex(s)));
      StoredFacts(Front(s.m) == [], s.tasks[t], x);
      hide TaskOk, PartOf, HasToken, SameWait, Stored;
      StayKeeps(s, t, x);
    }
  }

  // ----- publishing the list -----

  predicate Named(list: seq<Waiter>, i: nat)
  {
    list != [] && (list[0].task == i || Named(list[1..], i))
  }

  lemma {:induction false} NamedMember(list: seq<Waiter>, w: Waiter)
    requires w in list
    ensures Named(list, w.task)
  {
    if list[0] != w {
      NamedMember(list[1..], w);
    }
  }

  lemma {:induction false} MemberNamed(list: seq<Waiter>, i: nat) returns (w: Waiter)
    requires Named(list, i)
    ensures w in list && w.task == i
  {
    if list[0].task == i {
      w := list[0];
    } else {
      w := MemberNamed(list[1..], i);
    }
  }

  /** Exactly the tasks named in the list change their home, and nothing else of them. */
  lemma {:induction false} RehomeAt(tasks: seq<Task>, list: seq<Waiter>, i: nat)
    requires i < |tasks|
    ensures |Rehome(tasks, list)| == |tasks|
    ensures Rehome(tasks, list)[i] == if Named(list, i) then tasks[i].(home := OfMutex) else tasks[i]
    decreases |list|
  {
    if list != [] {
      var k := list[0].task;
      RehomeAt(if k < |tasks| then tasks[k := tasks[k].(home := OfMutex)] else tasks, list[1..], i);
    }
  }

  /** The waiters of the list can move one after the other. */
  ghost predicate Moves(m: Futex, c: Futex, tasks: seq<Task>, t: nat)
  {
    && Lawful(m, Parts(OfMutex, tasks)) && Lawful(c, Parts(OfCondvar, tasks)) && |m.queues| == 1
    && t < |tasks| && tasks[t].pc.NotifyPush?
    && (forall w :: w in tasks[t].pc.list ==>
          && w.task < |tasks| && w.task != t && w.queue == 0
          && PartOf(OfMutex, tasks[w.task]).hand == [] && !PartOf(OfMutex, tasks[w.task]).away)
  }

  function MoveOne(tasks: seq<Task>, t: nat): seq<Task>
    requires t < |tasks| && tasks[t].pc.NotifyPush? && tasks[t].pc.list != []
    requires tasks[t].pc.list[0].task < |tasks|
  {
    var w := tasks[t].pc.list[0];
    tasks[t := tasks[t].(pc := NotifyPush(tasks[t].pc.list[1..], tasks[t].pc.snap))]
         [w.task := tasks[w.task].(home := OfMutex)]
  }

  lemma {:induction false} PusherFacts(x: Task, y: Task)
    requires x.pc.NotifyPush? && x.pc.list != [] && y == x.(pc := NotifyPush(x.pc.list[1..], x.pc.snap))
    ensures PartOf(OfMutex, y) == PartOf(OfMutex, x)
    ensures PartOf(OfCondvar, y) == PartOf(OfCondvar, x).(hand := x.pc.list[1..])
  {
  }

  lemma {:induction false} MovedFacts(y: Task)
    requires PartOf(OfCondvar, y).waits == Some(0)
    ensures var z := y.(home := OfMutex);
            && PartOf(OfMutex, y).waits == None && PartOf(OfMutex, z) == PartOf(OfMutex, y).(waits := Some(0))
            && PartOf(OfCondvar, z) == PartOf(OfCondvar, y).(waits := None)
  {
  }

  lemma {:induction false} PusherHand(x: Task)
    requires x.pc.NotifyPush?
    ensures PartOf(OfCondvar, x).hand == x.pc.list
  {
  }

  lemma {:induction false} MoveOneLaw(m: Futex, c: Futex, tasks: seq<Task>, t: nat)
    requires Moves(m, c, tasks, t) && tasks[t].pc.list != []
    ensures Lawful(Push(m, tasks[t].pc.list[0]), Parts(OfMutex, MoveOne(tasks, t)))
    ensures Lawful(c, Parts(OfCondvar, MoveOne(tasks, t)))
  {
    hide Lawful, PartOf;
    PusherHand(tasks[t]);
    var w := tasks[t].pc.list[0];
    var x, z := tasks[t].(pc := NotifyPush(tasks[t].pc.list[1..], tasks[t].pc.snap)), tasks[w.task].(home := OfMutex);
    PusherFacts(tasks[t], x);
    HandSleeps(c, Parts(OfCondvar, tasks), t);
    MovedFacts(tasks[w.task]);
    assert w in tasks[t].pc.list;
    WakeLaw(c, Parts(OfCondvar, tasks), t, PartOf(OfCondvar, x), PartOf(OfCondvar, z));
    PartsUpdate(OfCondvar, tasks, t, x);
    PartsUpdate(OfCondvar, tasks[t := x], w.task, z);
    PartsUpdate(OfMutex, tasks, t, x);
    assert Parts(OfMutex, tasks[t := x]) == Parts(OfMutex, tasks);
    PartsUpdate(OfMutex, tasks[t := x], w.task, z);
    ParkLaw(m, Parts(OfMutex, tasks), w.task, 0, PartOf(OfMutex, z));
    assert Waiter(w.task, 0) == w;
  }

  lemma {:induction false} MoveOneMoves(m: Futex, c: Futex, tasks: seq<Task>, t: nat)
    requires Moves(m, c, tasks, t) && tasks[t].pc.list != []
    ensures Moves(Push(m, tasks[t].pc.list[0]), c, MoveOne(tasks, t), t)
  {
    hide Lawful;
    MoveOneLaw(m, c, tasks, t);
    var list := tasks[t].pc.list;
    assert list[0] in list;
    var next := MoveOne(tasks, t);
    forall w | w in list[1..]
      ensures w.task < |next| && w.task != t && w.queue == 0
      ensures PartOf(OfMutex, next[w.task]).hand == [] && !PartOf(OfMutex, next[w.task]).away
    {
      assert w in list;
    }
  }

  ghost predicate Requeued(m: Futex, c: Futex, tasks: seq<Task>, t: nat)
    requires t < |tasks| && tasks[t].pc.NotifyPush?
  {
    var tasks' := Rehome(tasks[t := tasks[t].(pc := NotifyLeaveMutex)], tasks[t].pc.list);
    && Lawful(m.(inbox := m.inbox + tasks[t].pc.list), Parts(OfMutex, tasks'))
    && Lawful(c, Parts(OfCondvar, tasks'))
  }

  /** Publishing the list moves every waiter in it, in order, from the one futex to the
    end of the other's inbox. */
  lemma {:induction false} RequeueLaw(m: Futex, c: Futex, tasks: seq<Task>, t: nat)
    requires Moves(m, c, tasks, t)
    ensures Requeued(m, c, tasks, t)
    decreases |tasks[t].pc.list|
  {
    var list := tasks[t].pc.list;
    if list == [] {
      RequeueNone(m, c, tasks, t);
      assert m.inbox + list == m.inbox;
    } else {
      MoveOneMoves(m, c, tasks, t);
      assert list[0] in list;
      hide Moves, Requeued;
      RequeueLaw(Push(m, list[0]), c, MoveOne(tasks, t), t);
      RequeueSome(m, c, tasks, t);
    }
  }

  lemma {:induction false} RequeueSome(m: Futex, c: Futex, tasks: seq<Task>, t: nat)
    requires t < |tasks| && tasks[t].pc.NotifyPush? && tasks[t].pc.list != []
    requires tasks[t].pc.list[0].task < |tasks| && tasks[t].pc.list[0].task != t
    requires Requeued(Push(m, tasks[t].pc.list[0]), c, MoveOne(tasks, t), t)
    ensures Requeued(m, c, tasks, t)
  {
    hide Lawful;
    var list := tasks[t].pc.list;
    MoveOneCommutes(tasks, t);
    assert (m.inbox + [list[0]]) + list[1..] == m.inbox + list;
  }

  lemma {:induction false} RequeueNone(m: Futex, c: Futex, tasks: seq<Task>, t: nat)
    requires Moves(m, c, tasks, t) && tasks[t].pc.list == []
    ensures var left := tasks[t := tasks[t].(pc := NotifyLeaveMutex)];
            Lawful(m, Parts(OfMutex, left)) && Lawful(c, Parts(OfCondvar, left))
  {
    hide Lawful;
    var left := tasks[t := tasks[t].(pc := NotifyLeaveMutex)];
    PartsUpdate(OfMutex, tasks, t, left[t]);
    PartsUpdate(OfCondvar, tasks, t, left[t]);
    assert Parts(OfMutex, left) == Parts(OfMutex, tasks);
    assert Parts(OfCondvar, left) == Parts(OfCondvar, tasks);
  }

  lemma {:induction false} MoveOneCommutes(tasks: seq<Task>, t: nat)
    requires t < |tasks| && tasks[t].pc.NotifyPush? && tasks[t].pc.list != []
    requires tasks[t].pc.list[0].task < |tasks| && tasks[t].pc.list[0].task != t
    ensures var list, next := tasks[t].pc.list, MoveOne(tasks, t);
            Rehome(next[t := next[t].(pc := NotifyLeaveMutex)], list[1..])
              == Rehome(tasks[t := tasks[t].(pc := NotifyLeaveMutex)], list)
  {
    var list, next := tasks[t].pc.list, MoveOne(tasks, t);
    var left := tasks[t := tasks[t].(pc := NotifyLeaveMutex)];
    var k := list[0].task;
    assert next[t := next[t].(pc := NotifyLeaveMutex)] == left[k := left[k].(home := OfMutex)];
  }

  lemma {:induction false} RehomedOk(quiet: bool, y: Task)
    requires TaskOk(quiet, y) && !HasToken(y) && y.owner == OfMutex
    requires !ExclusiveAt(OfMutex, y.pc) && !ExclusiveAt(OfCondvar, y.pc)
    ensures var z := y.(home := OfMutex);
            TaskOk(quiet, z) && HasToken(z) == HasToken(y) && Sleeps(z) == Sleeps(y)
  {
  }

  /** Task by task: what publishing the list leaves of the invariant. */
  lemma {:induction false} PushTask(s: State, t: nat, list: seq<Waiter>, snap: Snap<nat>, i: nat)
    requires Inv(s) && t < |s.tasks| && s.tasks[t].pc == NotifyPush(list, snap) && i < |s.tasks|
    ensures var left := s.tasks[t := s.tasks[t].(pc := NotifyLeaveMutex)];
            && |Rehome(left, list)| == |s.tasks|
            && Settled(Front(s.m) == [], s.tasks[i], Rehome(left, list)[i])
  {
    RehomeAt(s.tasks[t := s.tasks[t].(pc := NotifyLeaveMutex)], list, i);
    PusherNotNamed(s, t, list, snap);
    if Named(list, i) {
      var w := MemberNamed(list, i);
      PushNamed(s, t, list, snap, w);
    } else {
      PushUnnamed(s, t, list, snap, i);
    }
  }

  /** A task as publishing the list leaves it. */
  predicate Settled(quiet: bool, y: Task, z: Task)
  {
    TaskOk(quiet, z) && HasToken(z) == HasToken(y) && (Sleeps(z) ==> z.owner == z.home)
  }

  lemma {:induction false} PusherNotNamed(s: State, t: nat, list: seq<Waiter>, snap: Snap<nat>)
    requires Inv(s) && t < |s.tasks| && s.tasks[t].pc == NotifyPush(list, snap)
    ensures !Named(list, t)
  {
    if Named(list, t) {
      var w := MemberNamed(list, t);
      ListMovable(s, t, w);
    }
  }

  lemma {:induction false} PushNamed(s: State, t: nat, list: seq<Waiter>, snap: Snap<nat>, w: Waiter)
    requires Inv(s) && t < |s.tasks| && s.tasks[t].pc == NotifyPush(list, snap) && w in list
    ensures w.task < |s.tasks|
    ensures Settled(Front(s.m) == [], s.tasks[w.task], s.tasks[w.task].(home := OfMutex))
  {
    hide Inv;
    ListMovable(s, t, w);
    TokenWord(s, t);
    PushOwner(s, t, list, snap, w);
    TaskAt(s, w.task);
    RehomedOk(Front(s.m) == [], s.tasks[w.task]);
  }

  lemma {:induction false} PushUnnamed(s: State, t: nat, list: seq<Waiter>, snap: Snap<nat>, i: nat)
    requires Inv(s) && t < |s.tasks| && s.tasks[t].pc == NotifyPush(list, snap) && i < |s.tasks| && !Named(list, i)
    ensures Settled(Front(s.m) == [], s.tasks[i], if i == t then s.tasks[t].(pc := NotifyLeaveMutex) else s.tasks[i])
  {
    hide Inv;
    TaskAt(s, t);
    TaskAt(s, i);
    TokenWord(s, t);
    NotNamedSettled(s, t, list, snap, i);
  }

  lemma {:induction false} PushOwner(s: State, t: nat, list: seq<Waiter>, snap: Snap<nat>, w: Waiter)
    requires Inv(s)
    requires t < |s.tasks| && s.tasks[t].pc == NotifyPush(list, snap) && w in list
    ensures w.task < |s.tasks| && s.tasks[w.task].owner == OfMutex
  {
    TokenWord(s, t);
    assert InTransit(s.tasks, s.carrier) == list;
  }

  lemma {:induction false} NotNamedSettled(s: State, t: nat, list: seq<Waiter>, snap: Snap<nat>, i: nat)
    requires Inv(s)
    requires t < |s.tasks| && s.tasks[t].pc == NotifyPush(list, snap) && i < |s.tasks| && !Named(list, i)
    ensures Sleeps(s.tasks[i]) ==> s.tasks[i].owner == s.tasks[i].home
  {
    TokenWord(s, t);
    assert InTransit(s.tasks, s.carrier) == list;
    if Waiter(i, 0) in list {
      NamedMember(list, Waiter(i, 0));
    }
  }

  lemma {:induction false} PushMoves(s: State, t: nat, list: seq<Waiter>, snap: Snap<nat>)
    requires Inv(s) && t < |s.tasks| && s.tasks[t].pc == NotifyPush(list, snap)
    ensures Moves(s.m, s.c, s.tasks, t)
  {
    forall w | w in list
      ensures w.task < |s.tasks| && w.task != t && w.queue == 0
      ensures PartOf(OfMutex, s.tasks[w.task]).hand == [] && !PartOf(OfMutex, s.tasks[w.task]).away
    {
      ListMovable(s, t, w);
    }
  }

  lemma {:induction false} PushSettles(s: State, t: nat, list: seq<Waiter>, snap: Snap<nat>, tasks': seq<Task>)
    requires Inv(s) && t < |s.tasks| && s.tasks[t].pc == NotifyPush(list, snap)
    requires tasks' == Rehome(s.tasks[t := s.tasks[t].(pc := NotifyLeaveMutex)], list)
    ensures |tasks'| == |s.tasks|
    ensures forall i :: 0 <= i < |s.tasks| ==> Settled(Front(s.m) == [], s.tasks[i], tasks'[i])
  {
    PushTask(s, t, list, snap, t);
    forall i | 0 <= i < |s.tasks|
      ensures Settled(Front(s.m) == [], s.tasks[i], tasks'[i])
    {
      PushTask(s, t, list, snap, i);
    }
  }

  lemma {:induction false} SettledAll(s: State, s': State)
    requires Token(s) && |s'.tasks| == |s.tasks|
    requires forall i :: 0 <= i < |s.tasks| ==> Settled(Front(s.m) == [], s.tasks[i], s'.tasks[i])
    requires s'.word == s.word && s'.used == s.used && s'.carrier == s.carrier
    ensures Token(s') && Local(Front(s.m) == [], s'.tasks) && Owned(s'.tasks, [])
  {
    hide TaskOk, HasToken;
    forall i | 0 <= i < |s'.tasks|
      ensures HasToken(s'.tasks[i]) <==> s.carrier == Some(i)
      ensures TaskOk(Front(s.m) == [], s'.tasks[i])
      ensures Sleeps(s'.tasks[i]) ==> s'.tasks[i].owner == s'.tasks[i].home
    {
      assert Settled(Front(s.m) == [], s.tasks[i], s'.tasks[i]);
    }
  }

  lemma {:induction false} PushLists(s: State, t: nat, list: seq<Waiter>, snap: Snap<nat>)
    requires Inv(s) && t < |s.tasks| && s.tasks[t].pc == NotifyPush(list, snap)
    ensures var s' := s.(m := s.m.(inbox := s.m.inbox + list),
                         tasks := Rehome(s.tasks[t := s.tasks[t].(pc := NotifyLeaveMutex)], list));
            && Law(s', OfMutex) && Law(s', OfCondvar) && Token(s') && Free(s')
            && Local(Front(s'.m) == [], s'.tasks) && Owned(s'.tasks, [])
  {
    hide Lawful, Token, Local, Owned, Settled, Rehome, HasToken, Moves;
    PushMoves(s, t, list, snap);
    RequeueLaw(s.m, s.c, s.tasks, t);
    TokenWord(s, t);
    var tasks' := Rehome(s.tasks[t := s.tasks[t].(pc := NotifyLeaveMutex)], list);
    PushSettles(s, t, list, snap, tasks');
    SettledAll(s, s.(m := s.m.(inbox := s.m.inbox + list), tasks := tasks'));
  }

  lemma {:induction false} NotifyPushKeeps(s: State, t: nat, c: Choice, list: seq<Waiter>, snap: Snap<nat>)
    requires Inv(s) && t < |s.tasks| && s.tasks[t].pc == NotifyPush(list, snap)
    ensures Inv(StepNotifyPush(s, t, c, list, snap))
  {
    if c.spurious || snap != Mutex(s) {
      hide Inv;
      LookKeeps(s, t, NotifyPush(list, Mutex(s)));
    } else {
      PushLists(s, t, list, snap);
      TokenWord(s, t);
      PushTransit(s, t, list, snap);
      hide Law, Token, Free, Local, Owned, InTransit;
    }
  }

  lemma {:induction false} PushTransit(s: State, t: nat, list: seq<Waiter>, snap: Snap<nat>)
    requires Inv(s) && t < |s.tasks| && s.tasks[t].pc == NotifyPush(list, snap)
    ensures InTransit(Rehome(s.tasks[t := s.tasks[t].(pc := NotifyLeaveMutex)], list), s.carrier) == []
  {
    TokenWord(s, t);
    RehomeAt(s.tasks[t := s.tasks[t].(pc := NotifyLeaveMutex)], list, t);
  }

  // ----- dropping a wait future -----

  /** The owner cannot be in doubt while its futex is held to cancel: a waiter in
    transit has its notifier holding both futexes. */
  lemma {:induction false} OwnerSettled(s: State, t: nat, side: Side)
    requires Inv(s) && t < |s.tasks| && ExclusiveAt(side, s.tasks[t].pc)
    ensures Sleeps(s.tasks[t]) ==> s.tasks[t].owner == s.tasks[t].home
  {
    if Sleeps(s.tasks[t]) && s.tasks[t].owner != s.tasks[t].home {
      assert Waiter(t, 0) in InTransit(s.tasks, s.carrier);
      NoCanceller(s, s.carrier.value, t, OfMutex);
      NoCanceller(s, s.carrier.value, t, OfCondvar);
    }
  }

  lemma {:induction false} HeldFacts(quiet: bool, x: Task, y: Task)
    requires TaskOk(quiet, x) && x.pc.CancelHeld? && (Sleeps(x) ==> x.owner == x.home)
    requires y == x.(pc := if x.owner == x.pc.side then CancelLoad(x.pc.cv, x.pc.side)
                           else CancelBack(x.pc.cv, x.pc.side, x.owner))
    ensures PartOf(OfMutex, y) == PartOf(OfMutex, x) && PartOf(OfCondvar, y) == PartOf(OfCondvar, x)
    ensures HasToken(y) == HasToken(x) && SameWait(y, x) && Stored(y.pc) == Stored(x.pc) && TaskOk(quiet, y)
  {
  }

  lemma {:induction false} CancelHeldKeeps(s: State, t: nat, cv: bool, side: Side)
    requires Inv(s) && t < |s.tasks| && s.tasks[t].pc == CancelHeld(cv, side)
    ensures Inv(Goto(s, t, if s.tasks[t].owner == side then CancelLoad(cv, side)
                           else CancelBack(cv, side, s.tasks[t].owner)))
  {
    hide Inv, TaskOk, PartOf, HasToken, SameWait, Stored;
    OwnerSettled(s, t, side);
    TaskAt(s, t);
    var y := s.tasks[t].(pc := if s.tasks[t].owner == side then CancelLoad(cv, side)
                               else CancelBack(cv, side, s.tasks[t].owner));
    HeldFacts(Front(s.m) == [], s.tasks[t], y);
    StayKeeps(s, t, y);
  }

  lemma {:induction false} FlipFacts(quiet: bool, x: Task, y: Task)
    requires TaskOk(quiet, x) && (x.pc.CancelLoad? || x.pc.CancelFlip?)
    requires y.pc.CancelFlip? && y.pc.cv == x.pc.cv && y.pc.side == x.pc.side && y == x.(pc := y.pc)
    ensures forall side :: PartOf(side, y) == PartOf(side, x).(away := PartOf(side, y).away)
    ensures forall side :: PartOf(side, y).away ==> side == x.pc.side && y.pc.snap.inbox.None?
    ensures HasToken(y) == HasToken(x) && SameWait(y, x) && Stored(y.pc) == Stored(x.pc) && TaskOk(quiet, y)
  {
  }

  lemma {:induction false} CancelLookKeeps(s: State, t: nat, cv: bool, side: Side)
    requires Inv(s) && t < |s.tasks| && (s.tasks[t].pc.CancelLoad? || s.tasks[t].pc.CancelFlip?)
    requires s.tasks[t].pc.cv == cv && s.tasks[t].pc.side == side
    ensures Inv(Goto(s, t, CancelFlip(cv, side, Look(s, side))))
  {
    hide Inv, TaskOk, PartOf, HasToken, SameWait, Stored;
    TaskAt(s, t);
    var y := s.tasks[t].(pc := CancelFlip(cv, side, Look(s, side)));
    FlipFacts(Front(s.m) == [], s.tasks[t], y);
    StayKeeps(s, t, y);
  }

  /** Here f is the futex after the flip, or the futex itself if the inbox was seen empty. */
  predicate Flipped(was: Futex, f: Futex, snap: Snap<nat>)
  {
    f == Enqueue(was) || (f == was && snap.inbox.None?)
  }

  lemma {:induction false} UnlinkFacts(quiet: bool, quiet': bool, x: Task, y: Task)
    requires TaskOk(quiet, x) && x.pc.CancelFlip? && y == x.(pc := CancelCheck(x.pc.cv))
    ensures var side := x.pc.side;
            && PartOf(side, x).exclusive == 1
            && (PartOf(side, x).waits == None || PartOf(side, x).waits == Some(0))
            && PartOf(side, x).away == x.pc.snap.inbox.None?
            && PartOf(side, y) == PartOf(side, x).(waits := None, exclusive := 0, away := false)
            && PartOf(Other(side), y) == PartOf(Other(side), x)
    ensures HasToken(y) == HasToken(x) && Stored(y.pc) == Stored(x.pc) && TaskOk(quiet', y)
    ensures !Sleeps(y) && y.owner == x.owner && y.home == x.home
  {
  }

  lemma {:induction false} UnlinkLaws(s: State, t: nat, side: Side, f: Futex, x: Task)
    requires Inv(s) && t < |s.tasks| && s.tasks[t].pc.CancelFlip? && s.tasks[t].pc.side == side
    requires Flipped(Of(s, side), f, s.tasks[t].pc.snap) && x == s.tasks[t].(pc := CancelCheck(s.tasks[t].pc.cv))
    ensures var s' := With(s.(tasks := s.tasks[t := x]), side, Include(Unlink(f, Waiter(t, 0))));
            Law(s', OfMutex) && Law(s', OfCondvar)
  {
    hide Inv, Lawful, TaskOk, HasToken, PartOf, Stored, Unlink, Flipped, Sleeps;
    TaskAt(s, t);
    Lawfuls(s, side);
    UnlinkFacts(Front(s.m) == [], true, s.tasks[t], x);
    UnlinkSide(s, t, side, f, x);
    StayLaw(Of(s, Other(side)), Parts(Other(side), s.tasks), t, PartOf(Other(side), x));
    PartsUpdate(Other(side), s.tasks, t, x);
  }

  lemma {:induction false} UnlinkSide(s: State, t: nat, side: Side, f: Futex, x: Task)
    requires Law(s, side) && t < |s.tasks| && s.tasks[t].pc.CancelFlip? && s.tasks[t].pc.side == side
    requires TaskOk(Front(s.m) == [], s.tasks[t])
    requires Flipped(Of(s, side), f, s.tasks[t].pc.snap) && x == s.tasks[t].(pc := CancelCheck(s.tasks[t].pc.cv))
    ensures var f' := Include(Unlink(f, Waiter(t, 0)));
            Lawful(f', Parts(side, s.tasks[t := x])) && |f'.queues| == 1
  {
    hide Lawful, TaskOk, HasToken, PartOf, Stored;
    UnlinkFacts(Front(s.m) == [], true, s.tasks[t], x);
    EnqueueLaw(Of(s, side), Parts(side, s.tasks));
    UnlinkLaw(f, Include(Unlink(f, Waiter(t, 0))), Parts(side, s.tasks), t, 0, PartOf(side, x));
    PartsUpdate(side, s.tasks, t, x);
  }

  /** While the mutex's futex is held to cancel nobody relies on its queue. */
  lemma {:induction false} CancellerLocal(s: State, t: nat, quiet: bool, x: Task)
    requires Law(s, OfMutex) && Local(Front(s.m) == [], s.tasks) && t < |s.tasks|
    requires ExclusiveAt(OfMutex, s.tasks[t].pc) && TaskOk(quiet, x)
    ensures Local(quiet, s.tasks[t := x])
  {
    forall i | 0 <= i < |s.tasks| && i != t
      ensures TaskOk(quiet, s.tasks[i])
    {
      if GuardAt(OfMutex, s.tasks[i].pc) {
        NoCanceller(s, i, t, OfMutex);
      }
      TaskAtLocal(s, i);
    }
  }

  lemma {:induction false} UnlinkOwned(tasks: seq<Task>, transit: seq<Waiter>, t: nat, x: Task)
    requires Owned(tasks, transit) && t < |tasks|
    requires !Sleeps(x) && x.owner == tasks[t].owner && x.home == tasks[t].home
    ensures Owned(tasks[t := x], transit)
  {
  }

  lemma {:induction false} UnlinkFree(s: State, side: Side, f: Futex, t: nat, snap: Snap<nat>)
    requires Free(s) && Flipped(Of(s, side), f, snap)
    ensures Free(With(s, side, Include(Unlink(f, Waiter(t, 0)))))
  {
  }

  lemma {:induction false} UnlinkLocal(s: State, t: nat, side: Side, f: Futex, x: Task)
    requires Law(s, OfMutex) && Local(Front(s.m) == [], s.tasks) && t < |s.tasks|
    requires s.tasks[t].pc.CancelFlip? && s.tasks[t].pc.side == side &&
        x == s.tasks[t].(pc := CancelCheck(s.tasks[t].pc.cv))
    ensures Local(Front(With(s, side, f).m) == [], s.tasks[t := x])
  {
    TaskAtLocal(s, t);
    if side == OfMutex {
      UnlinkFacts(Front(s.m) == [], Front(f) == [], s.tasks[t], x);
      CancellerLocal(s, t, Front(f) == [], x);
    } else {
      UnlinkFacts(Front(s.m) == [], Front(s.m) == [], s.tasks[t], x);
      TurnLocal(Front(s.m) == [], s.tasks, t, x);
    }
  }

  /** The cancelled waiter is out of every list; all others stay where they are. */
  lemma {:induction false} UnlinkKeeps(s: State, t: nat, side: Side, f: Futex, x: Task)
    requires Inv(s) && t < |s.tasks| && s.tasks[t].pc.CancelFlip? && s.tasks[t].pc.side == side
    requires Flipped(Of(s, side), f, s.tasks[t].pc.snap) && x == s.tasks[t].(pc := CancelCheck(s.tasks[t].pc.cv))
    ensures Inv(With(s.(tasks := s.tasks[t := x]), side, Include(Unlink(f, Waiter(t, 0)))))
  {
    hide Law, Token, Local, Owned, TaskOk, HasToken, PartOf, InTransit, Stored, Flipped, Sleeps, Unlink;
    var s' := With(s.(tasks := s.tasks[t := x]), side, Include(Unlink(f, Waiter(t, 0))));
    TaskAt(s, t);
    UnlinkFacts(Front(s.m) == [], true, s.tasks[t], x);
    UnlinkLaws(s, t, side, f, x);
    UnlinkFree(s, side, f, t, s.tasks[t].pc.snap);
    UnlinkLocal(s, t, side, Include(Unlink(f, Waiter(t, 0))), x);
    TurnToken(s, s', t, x);
    TurnTransit(s.tasks, s.carrier, t, x);
    UnlinkOwned(s.tasks, InTransit(s.tasks, s.carrier), t, x);
  }

  lemma {:induction false} CancelFlipKeeps(s: State, t: nat, c: Choice, cv: bool, side: Side, snap: Snap<nat>)
    requires Inv(s) && t < |s.tasks| && s.tasks[t].pc == CancelFlip(cv, side, snap)
    ensures Inv(StepCancelFlip(s, t, c, cv, side, snap))
  {
    hide Inv, Unlink, Enqueue;
    var x := s.tasks[t].(pc := CancelCheck(cv));
    if snap.inbox.None? {
      UnlinkKeeps(s, t, side, Of(s, side), x);
    } else if !c.spurious && snap == Look(s, side) {
      UnlinkKeeps(s, t, side, Enqueue(Of(s, side)), x);
    } else {
      CancelLookKeeps(s, t, cv, side);
    }
  }

  lemma {:induction false} CheckFacts(quiet: bool, x: Task, y: Task)
    requires TaskOk(quiet, x) && x.pc.CancelCheck?
    requires || (x.slot.Waiting? && y == x.(pc := if x.pc.cv then Unimplemented else Idle, slot := Off))
             || (x.slot.Done? && y == x.(pc := UnlockShare(false), slot := Off))
    ensures PartOf(OfMutex, y) == PartOf(OfMutex, x) && PartOf(OfCondvar, y) == PartOf(OfCondvar, x)
    ensures HasToken(y) == HasToken(x) && SameWait(y, x) && Stored(y.pc) == Stored(x.pc) && TaskOk(quiet, y)
  {
    hide TaskOk, PartOf, HasToken, SameWait, Stored;
    if x.slot.Waiting? {
      CheckSleepingFacts(quiet, x, y);
    } else {
      CheckWokenFacts(quiet, x, y);
    }
  }

  lemma {:induction false} CheckSleepingFacts(quiet: bool, x: Task, y: Task)
    requires TaskOk(quiet, x) && x.pc.CancelCheck? && x.slot.Waiting?
    requires y == x.(pc := if x.pc.cv then Unimplemented else Idle, slot := Off)
    ensures PartOf(OfMutex, y) == PartOf(OfMutex, x) && PartOf(OfCondvar, y) == PartOf(OfCondvar, x)
    ensures HasToken(y) == HasToken(x) && SameWait(y, x) && Stored(y.pc) == Stored(x.pc) && TaskOk(quiet, y)
  {
  }

  lemma {:induction false} CheckWokenFacts(quiet: bool, x: Task, y: Task)
    requires TaskOk(quiet, x) && x.pc.CancelCheck? && x.slot.Done? && y == x.(pc := UnlockShare(false), slot := Off)
    ensures PartOf(OfMutex, y) == PartOf(OfMutex, x) && PartOf(OfCondvar, y) == PartOf(OfCondvar, x)
    ensures HasToken(y) == HasToken(x) && SameWait(y, x) && Stored(y.pc) == Stored(x.pc) && TaskOk(quiet, y)
  {
  }

  lemma {:induction false} WaitUsesSlot(s: State, t: nat)
    requires Inv(s) && t < |s.tasks| && s.tasks[t].pc.CancelCheck?
    ensures !s.tasks[t].slot.Off?
  {
    TaskAt(s, t);
  }

  lemma {:induction false} CancelCheckKeeps(s: State, t: nat, cv: bool)
    requires Inv(s) && t < |s.tasks| && s.tasks[t].pc == CancelCheck(cv)
    ensures Inv(StepCancelCheck(s, t, cv))
  {
    hide Inv, TaskOk, PartOf, HasToken, SameWait, Stored;
    TaskAt(s, t);
    WaitUsesSlot(s, t);
    var x := s.tasks[t];
    var y := if x.slot.Waiting? then x.(pc := if cv then Unimplemented else Idle, slot := Off)
             else x.(pc := UnlockShare(false), slot := Off);
    CheckFacts(Front(s.m) == [], x, y);
    StayKeeps(s, t, y);
  }

  // ----- turning to another operation -----

  /** The program points between which a task turns without touching a futex. */
  predicate Turns(x: Task, y: Task)
  {
    || (x.pc.Idle? && y.pc.LockTry? && y.slot == x.slot)
    || (x.pc.Parked? && y.pc.CancelWait? && y.pc.cv == x.pc.cv && y.slot == x.slot)
    || (x.pc.Parked? && x.slot.Done? && y.pc.Locked? && y.slot.Off?)
    || (x.pc.Locked? && (y.pc.UnlockShare? && !y.pc.cv) && y.slot == x.slot)
    || (x.pc.Locked? && y.pc.WaitTry? && y.pc.snap.word <= 1 && y.slot == x.slot)
    || (x.pc.Locked? && y.pc.NotifyShare? && y.slot == x.slot)
  }

  lemma {:induction false} TurnFacts(quiet: bool, x: Task, y: Task)
    requires TaskOk(quiet, x) && Turns(x, y) && y == x.(pc := y.pc, slot := y.slot)
    ensures PartOf(OfMutex, y) == PartOf(OfMutex, x) && PartOf(OfCondvar, y) == PartOf(OfCondvar, x)
    ensures HasToken(y) == HasToken(x) && SameWait(y, x) && Stored(y.pc) == Stored(x.pc) && TaskOk(quiet, y)
  {
  }

  lemma {:induction false} TurnsKeep(s: State, t: nat, y: Task)
    requires Inv(s) && t < |s.tasks| && Turns(s.tasks[t], y) && y == s.tasks[t].(pc := y.pc, slot := y.slot)
    ensures Inv(s.(tasks := s.tasks[t := y]))
  {
    hide Inv, TaskOk, PartOf, HasToken, SameWait, Stored, Turns;
    TaskAt(s, t);
    TurnFacts(Front(s.m) == [], s.tasks[t], y);
    StayKeeps(s, t, y);
  }

  // ----- locks -----

  /** The program points between which a task takes or releases a lock. */
  predicate Shares(pc: Pc, side: Side, next: Pc)
  {
    || (pc.UnlockShare? && side == OfMutex && next == UnlockBorrow(pc.cv))
    || (pc.NotifyShare? && side == OfCondvar && next == NotifyBorrow(pc.snap, pc.count))
    || (pc.NotifyMutex? && side == OfMutex &&
        next == if pc.list == [] then NotifyLeaveMutex else NotifyStore(pc.list, 0))
  }

  predicate Unshares(pc: Pc, side: Side, next: Pc)
  {
    || (pc.UnlockLeave? && side == OfMutex && next == AfterUnlock(pc.cv))
    || (pc.NotifyLeaveMutex? && side == OfMutex && next == NotifyLeave)
    || (pc.NotifyLeave? && side == OfCondvar && next == Locked)
  }

  predicate Borrows(pc: Pc, side: Side, next: Pc)
  {
    || (pc.UnlockBorrow? && side == OfMutex && next == UnlockPop(pc.cv))
    || (pc.UnlockRelock? && side == OfMutex && next == UnlockDecide(pc.cv, pc.snap))
    || (pc.NotifyBorrow? && side == OfCondvar && next == NotifyTake(pc.snap, pc.count))
  }

  predicate Returns(pc: Pc, side: Side, next: Pc)
  {
    || (pc.UnlockDecide? && side == OfMutex && pc.snap.inbox.None? && next == UnlockFree(pc.cv, pc.snap))
    || (pc.HandDrop? && side == OfMutex && next == HandWake(pc.cv, pc.w))
    || (pc.NotifyDrop? && side == OfCondvar && next == NotifyMutex(pc.list))
  }

  lemma {:induction false} ShareFacts(quiet: bool, x: Task, side: Side, next: Pc)
    requires TaskOk(quiet, x) && Shares(x.pc, side, next)
    ensures Relock(quiet, side, x, x.(pc := next))
    ensures PartOf(side, x.(pc := next)) == PartOf(side, x).(guard := PartOf(side, x).guard + 1)
  {
    hide TaskOk, PartOf, Relock;
    if x.pc.UnlockShare? {
      ShareUnlockFacts(quiet, x);
    } else if x.pc.NotifyShare? {
      ShareNotifyFacts(quiet, x);
    } else {
      ShareMutexFacts(quiet, x, next);
    }
  }

  lemma {:induction false} ShareUnlockFacts(quiet: bool, x: Task)
    requires TaskOk(quiet, x) && x.pc.UnlockShare?
    ensures var y := x.(pc := UnlockBorrow(x.pc.cv));
            && Relock(quiet, OfMutex, x, y)
            && PartOf(OfMutex, y) == PartOf(OfMutex, x).(guard := PartOf(OfMutex, x).guard + 1)
  {
  }

  lemma {:induction false} ShareNotifyFacts(quiet: bool, x: Task)
    requires TaskOk(quiet, x) && x.pc.NotifyShare?
    ensures var y := x.(pc := NotifyBorrow(x.pc.snap, x.pc.count));
            && Relock(quiet, OfCondvar, x, y)
            && PartOf(OfCondvar, y) == PartOf(OfCondvar, x).(guard := PartOf(OfCondvar, x).guard + 1)
  {
  }

  lemma {:induction false} ShareMutexFacts(quiet: bool, x: Task, next: Pc)
    requires TaskOk(quiet, x) && x.pc.NotifyMutex?
    requires next == if x.pc.list == [] then NotifyLeaveMutex else NotifyStore(x.pc.list, 0)
    ensures var y := x.(pc := next);
            && Relock(quiet, OfMutex, x, y)
            && PartOf(OfMutex, y) == PartOf(OfMutex, x).(guard := PartOf(OfMutex, x).guard + 1)
  {
  }

  lemma {:induction false} UnshareFacts(quiet: bool, x: Task, side: Side, next: Pc)
    requires TaskOk(quiet, x) && Unshares(x.pc, side, next)
    ensures Relock(quiet, side, x, x.(pc := next))
    ensures PartOf(side, x).guard == 1 && PartOf(side, x).hand == [] && PartOf(side, x).borrow == 0
    ensures PartOf(side, x.(pc := next)) == PartOf(side, x).(guard := 0)
  {
    hide TaskOk, PartOf, Relock;
    if x.pc.UnlockLeave? {
      LeaveFacts(quiet, x);
    } else {
      LeaveNotifyFacts(quiet, x, side, next);
    }
  }

  lemma {:induction false} LeaveNotifyFacts(quiet: bool, x: Task, side: Side, next: Pc)
    requires TaskOk(quiet, x)
    requires || (x.pc.NotifyLeaveMutex? && side == OfMutex && next == NotifyLeave)
             || (x.pc.NotifyLeave? && side == OfCondvar && next == Locked)
    ensures var y := x.(pc := next);
            && Relock(quiet, side, x, y)
            && PartOf(side, x).guard == 1 && PartOf(side, x).hand == [] && PartOf(side, x).borrow == 0
            && PartOf(side, y) == PartOf(side, x).(guard := 0)
  {
  }

  lemma {:induction false} LeaveFacts(quiet: bool, x: Task)
    requires TaskOk(quiet, x) && x.pc.UnlockLeave?
    ensures var y := x.(pc := AfterUnlock(x.pc.cv));
            && Relock(quiet, OfMutex, x, y)
            && PartOf(OfMutex, x).guard == 1 && PartOf(OfMutex, x).hand == [] && PartOf(OfMutex, x).borrow == 0
            && PartOf(OfMutex, y) == PartOf(OfMutex, x).(guard := 0)
  {
    if x.pc.cv {
      assert AfterUnlock(x.pc.cv) == Parked(true);
    } else {
      assert AfterUnlock(x.pc.cv) == Idle;
    }
  }

  lemma {:induction false} BorrowFacts(quiet: bool, x: Task, side: Side, next: Pc)
    requires TaskOk(quiet, x) && Borrows(x.pc, side, next)
    ensures HasToken(x) && Relock(quiet, side, x, x.(pc := next))
    ensures PartOf(side, x).guard == 1 && PartOf(side, x).borrow == 0
    ensures PartOf(side, x.(pc := next)) == PartOf(side, x).(borrow := 1)
  {
  }

  lemma {:induction false} ReturnFacts(quiet: bool, x: Task, side: Side, next: Pc)
    requires TaskOk(quiet, x) && Returns(x.pc, side, next)
    ensures Relock(quiet, side, x, x.(pc := next)) && PartOf(side, x).borrow == 1
    ensures PartOf(side, x.(pc := next)) == PartOf(side, x).(borrow := 0)
  {
  }

  lemma {:induction false} SharesKeep(s: State, t: nat, side: Side, next: Pc)
    requires Inv(s) && t < |s.tasks| && Shares(s.tasks[t].pc, side, next)
    ensures Inv(ShareGuard(s, t, side, next))
  {
    hide Inv, Shares, Relock, PartOf, TaskOk;
    TaskAt(s, t);
    ShareFacts(Front(s.m) == [], s.tasks[t], side, next);
    ShareKeeps(s, t, side, next);
  }

  lemma {:induction false} UnsharesKeep(s: State, t: nat, side: Side, next: Pc)
    requires Inv(s) && t < |s.tasks| && Unshares(s.tasks[t].pc, side, next)
    ensures Inv(UnshareGuard(s, t, side, next))
  {
    hide Inv, Unshares, Relock, PartOf, TaskOk;
    TaskAt(s, t);
    UnshareFacts(Front(s.m) == [], s.tasks[t], side, next);
    UnshareKeeps(s, t, side, next);
  }

  lemma {:induction false} BorrowsKeep(s: State, t: nat, side: Side, next: Pc)
    requires Inv(s) && t < |s.tasks| && Borrows(s.tasks[t].pc, side, next)
    ensures Inv(Borrow(s, t, side, next))
  {
    hide Inv, Borrows, Relock, PartOf, TaskOk, HasToken;
    TaskAt(s, t);
    BorrowFacts(Front(s.m) == [], s.tasks[t], side, next);
    BorrowKeeps(s, t, side, next);
  }

  lemma {:induction false} ReturnsKeep(s: State, t: nat, side: Side, next: Pc)
    requires Inv(s) && t < |s.tasks| && Returns(s.tasks[t].pc, side, next)
    ensures Inv(Return(s, t, side, next))
  {
    hide Inv, Returns, Relock, PartOf, TaskOk;
    TaskAt(s, t);
    ReturnFacts(Front(s.m) == [], s.tasks[t], side, next);
    ReturnKeeps(s, t, side, next);
  }

  lemma {:induction false} ExcludeFacts(quiet: bool, x: Task, side: Side, next: Pc)
    requires TaskOk(quiet, x) && x.pc.CancelWait? && x.pc.side == side && next == CancelHeld(x.pc.cv, side)
    ensures Relock(quiet, side, x, x.(pc := next)) && PartOf(side, x).exclusive == 0
    ensures PartOf(side, x.(pc := next)) == PartOf(side, x).(exclusive := 1)
  {
  }

  lemma {:induction false} CancelGuardKeeps(s: State, t: nat, cv: bool, side: Side)
    requires Inv(s) && t < |s.tasks| && s.tasks[t].pc == CancelWait(cv, side)
    requires !Of(s, side).exclusive && Of(s, side).guards == 0
    ensures Inv(With(Goto(s, t, CancelHeld(cv, side)), side, Exclude(Of(s, side))))
  {
    hide Inv, Relock, PartOf, TaskOk;
    TaskAt(s, t);
    ExcludeFacts(Front(s.m) == [], s.tasks[t], side, CancelHeld(cv, side));
    ExcludeKeeps(s, t, side, CancelHeld(cv, side));
  }

  lemma {:induction false} IncludeFacts(quiet: bool, x: Task, side: Side, next: Pc)
    requires TaskOk(quiet, x) && x.pc.CancelBack? && x.pc.side == side && next == CancelWait(x.pc.cv, x.pc.owner)
    ensures Relock(quiet, side, x, x.(pc := next)) && PartOf(side, x).exclusive == 1
    ensures PartOf(side, x.(pc := next)) == PartOf(side, x).(exclusive := 0)
  {
  }

  lemma {:induction false} CancelBackKeeps(s: State, t: nat, cv: bool, side: Side, owner: Side)
    requires Inv(s) && t < |s.tasks| && s.tasks[t].pc == CancelBack(cv, side, owner)
    ensures Inv(With(Goto(s, t, CancelWait(cv, owner)), side, Include(Of(s, side))))
  {
    hide Inv, Relock, PartOf, TaskOk;
    TaskAt(s, t);
    IncludeFacts(Front(s.m) == [], s.tasks[t], side, CancelWait(cv, owner));
    IncludeKeeps(s, t, side, CancelWait(cv, owner));
  }

  // ----- every step, every run -----

  lemma {:induction false} ParkedKeeps(s: State, t: nat, c: Choice, cv: bool)
    requires Inv(s) && t < |s.tasks| && s.tasks[t].pc == Parked(cv)
    ensures Inv(StepParked(s, t, c, cv))
  {
    hide Inv;
    var x := s.tasks[t];
    if c.op.Cancel? {
      TurnsKeep(s, t, x.(pc := CancelWait(cv, x.owner)));
    } else if x.slot.Done? {
      TurnsKeep(s, t, x.(pc := Locked, slot := Off));
    }
  }

  lemma {:induction false} LockedKeeps(s: State, t: nat, c: Choice)
    requires Inv(s) && t < |s.tasks| && s.tasks[t].pc.Locked?
    ensures Inv(Step(s, t, c))
  {
    hide Inv;
    WordIsBit(s);
    var x := s.tasks[t];
    if c.op.StartWait? {
      TurnsKeep(s, t, x.(pc := WaitTry(Condvar(s))));
    } else if c.op.StartNotify? {
      if s.used != 0 {
        TurnsKeep(s, t, x.(pc := NotifyShare(Condvar(s), c.op.count)));
      }
    } else {
      TurnsKeep(s, t, x.(pc := UnlockShare(false)));
    }
  }

  lemma {:induction false} LockKeepsStep(s: State, t: nat, c: Choice)
    requires Inv(s) && t < |s.tasks|
    requires var pc := s.tasks[t].pc; pc.Idle? || pc.LockTry? || pc.Parked? || pc.Locked? || pc.WaitTry?
    ensures Inv(Step(s, t, c))
  {
    hide Inv, StepLockTry, StepWaitTry, StepParked;
    match s.tasks[t].pc
    case Idle =>
      if c.op.StartLock? {
        TurnsKeep(s, t, s.tasks[t].(pc := LockTry(Mutex(s))));
      }
    case LockTry(snap) => LockTryKeeps(s, t, c, snap);
    case Parked(cv) => ParkedKeeps(s, t, c, cv);
    case Locked => LockedKeeps(s, t, c);
    case WaitTry(snap) => WaitTryKeeps(s, t, c, snap);
  }

  lemma {:induction false} UnlockPopKeeps(s: State, t: nat, cv: bool)
    requires Inv(s) && t < |s.tasks| && s.tasks[t].pc == UnlockPop(cv)
    ensures Inv(if Front(s.m) != [] then Take(s, t, cv, s.m) else Goto(s, t, UnlockDecide(cv, Mutex(s))))
  {
    hide Inv;
    if Front(s.m) != [] {
      TakeKeeps(s, t, cv, s.m);
    } else {
      LookKeeps(s, t, UnlockDecide(cv, Mutex(s)));
    }
  }

  lemma {:induction false} UnlockKeepsStep(s: State, t: nat, c: Choice)
    requires Inv(s) && t < |s.tasks| && (Releasing(s.tasks[t].pc) || s.tasks[t].pc.UnlockLeave?)
    ensures Inv(Step(s, t, c))
  {
    hide Inv, StepUnlockDecide, StepUnlockFree, Take, Wake, ShareGuard, UnshareGuard, Borrow, Return, Front;
    match s.tasks[t].pc
    case UnlockShare(cv) => SharesKeep(s, t, OfMutex, UnlockBorrow(cv));
    case UnlockBorrow(cv) => BorrowsKeep(s, t, OfMutex, UnlockPop(cv));
    case UnlockPop(cv) => UnlockPopKeeps(s, t, cv);
    case UnlockDecide(cv, snap) => UnlockDecideKeeps(s, t, c, cv, snap);
    case UnlockFree(cv, snap) => UnlockFreeKeeps(s, t, c, cv, snap);
    case UnlockRelock(cv, snap) => BorrowsKeep(s, t, OfMutex, UnlockDecide(cv, snap));
    case HandDrop(cv, w) => ReturnsKeep(s, t, OfMutex, HandWake(cv, w));
    case HandWake(cv, w) => WakeKeeps(s, t, cv, w);
    case UnlockLeave(cv) => UnsharesKeep(s, t, OfMutex, AfterUnlock(cv));
  }

  lemma {:induction false} NotifyKeepsStep(s: State, t: nat, c: Choice)
    requires Inv(s) && t < |s.tasks| && Notifying(s.tasks[t].pc)
    ensures Inv(Step(s, t, c))
  {
    hide Inv, StepNotifyTake, StepNotifyStore, StepNotifyPush, ShareGuard, UnshareGuard, Borrow, Return;
    match s.tasks[t].pc
    case NotifyShare(snap, count) => SharesKeep(s, t, OfCondvar, NotifyBorrow(snap, count));
    case NotifyBorrow(snap, count) => BorrowsKeep(s, t, OfCondvar, NotifyTake(snap, count));
    case NotifyTake(snap, count) => NotifyTakeKeeps(s, t, c, snap, count);
    case NotifyDrop(list) => ReturnsKeep(s, t, OfCondvar, NotifyMutex(list));
    case NotifyMutex(list) =>
      SharesKeep(s, t, OfMutex, if list == [] then NotifyLeaveMutex else NotifyStore(list, 0));
    case NotifyStore(list, stored) => NotifyStoreKeeps(s, t, list, stored);
    case NotifyPush(list, snap) => NotifyPushKeeps(s, t, c, list, snap);
    case NotifyLeaveMutex => UnsharesKeep(s, t, OfMutex, NotifyLeave);
    case NotifyLeave => UnsharesKeep(s, t, OfCondvar, Locked);
  }

  lemma {:induction false} CancelKeepsStep(s: State, t: nat, c: Choice)
    requires Inv(s) && t < |s.tasks| && Cancelling(s.tasks[t].pc)
    ensures Inv(Step(s, t, c))
  {
    hide Inv, StepCancelFlip, StepCancelCheck;
    match s.tasks[t].pc
    case CancelWait(cv, side) =>
      if !Of(s, side).exclusive && Of(s, side).guards == 0 {
        CancelGuardKeeps(s, t, cv, side);
      }
    case CancelHeld(cv, side) => CancelHeldKeeps(s, t, cv, side);
    case CancelBack(cv, side, owner) => CancelBackKeeps(s, t, cv, side, owner);
    case CancelLoad(cv, side) => CancelLookKeeps(s, t, cv, side);
    case CancelFlip(cv, side, snap) => CancelFlipKeeps(s, t, c, cv, side, snap);
    case CancelCheck(cv) => CancelCheckKeeps(s, t, cv);
  }

  lemma {:induction false} StepKeeps(s: State, t: nat, c: Choice)
    requires Inv(s) && t < |s.tasks|
    ensures Inv(Step(s, t, c))
  {
    hide Inv;
    var pc := s.tasks[t].pc;
    if Releasing(pc) || pc.UnlockLeave? {
      UnlockKeepsStep(s, t, c);
    } else if Notifying(pc) {
      NotifyKeepsStep(s, t, c);
    } else if Cancelling(pc) {
      CancelKeepsStep(s, t, c);
    } else if pc.Unimplemented? || pc.Crashed? {
    } else {
      LockKeepsStep(s, t, c);
    }
  }

  lemma {:induction false} InitLaw(tasks: nat, side: Side)
    ensures Law(Init(tasks), side)
  {
    hide Lawful;
    NewLaw(1, Parts(side, Init(tasks).tasks));
  }

  lemma {:induction false} InitKeeps(tasks: nat)
    ensures Inv(Init(tasks))
  {
    hide Law;
    InitLaw(tasks, OfMutex);
    InitLaw(tasks, OfCondvar);
  }

  /** Every reachable state, for any number of tasks and any interleaving. */
  lemma {:induction false} RunKeeps(tasks: nat, schedule: seq<(nat, Choice)>)
    ensures Inv(Run(Init(tasks), schedule))
    decreases |schedule|
  {
    if schedule == [] {
      InitKeeps(tasks);
    } else {
      var last := |schedule| - 1;
      RunKeeps(tasks, schedule[..last]);
      var p := Run(Init(tasks), schedule[..last]);
      var (t, c) := schedule[last];
      if t < |p.tasks| {
        hide Inv;
        StepKeeps(p, t, c);
      }
    }
  }
}
