/** The waiter count and the waking flag of the barging mutex, kept by every step of
  every task.
 */
module FastMutexProof {
  import opened Counting
  import opened FastMutex
  import opened Futex
  import opened FutexLaws
  import opened Options

  // ----- what a task holds -----

  predicate Holds(pc: Pc)
  {
    pc.Held? || pc.UnlockTry? || pc.UnlockGuard? || pc.UnlockBorrow? || pc.UnlockDecide?
  }

  /** The task carries the announced wake-up: in hand, or as the task woken. */
  predicate Wakes(pc: Pc)
  {
    pc.HandDrop? || pc.HandWake? || (pc.Parked? && pc.woken) || pc.Retry?
  }

  /** The tasks counted as waiters. */
  function Units(pc: Pc): nat
  {
    if pc.Parked? || pc.Retry? then 1 else 0
  }

  function PartOf(pc: Pc): Part
  {
    match pc
    case Parked(_, woken) => OUTSIDE.(waits := if woken then None else Some(0))
    case UnlockBorrow(_) => OUTSIDE.(guard := 1)
    case UnlockDecide(_, _) => OUTSIDE.(guard := 1, borrow := 1)
    case HandDrop(w) => OUTSIDE.(guard := 1, borrow := 1, hand := [w])
    case HandWake(w) => OUTSIDE.(guard := 1, hand := [w])
    case Return => OUTSIDE.(guard := 1, borrow := 1)
    case Leave => OUTSIDE.(guard := 1)
    case _ => OUTSIDE
  }

  function Parts(pcs: seq<Pc>): seq<Part>
  {
    Map(pcs, PartOf)
  }

  lemma {:induction false} PartsUpdate(pcs: seq<Pc>, t: nat, pc: Pc)
    requires t < |pcs|
    ensures Parts(pcs[t := pc]) == Parts(pcs)[t := PartOf(pc)] && |Parts(pcs)| == |pcs| &&
        Parts(pcs)[t] == PartOf(pcs[t])
  {
    MapUpdate(pcs, PartOf, t, pc);
  }

  // ----- the invariant -----

  ghost predicate Law(f: Futex, pcs: seq<Pc>)
  {
    Lawful(f, Parts(pcs)) && |f.queues| == 1
  }

  predicate Roles(word: Word, holder: Option<nat>, awake: Option<nat>, pcs: seq<Pc>)
  {
    && word.locked == holder.Some? && word.waking == awake.Some?
    && (holder.Some? ==> holder.value < |pcs|) && (awake.Some? ==> awake.value < |pcs|)
    && forall i :: 0 <= i < |pcs| ==> RoleOk(holder, awake, i, pcs[i])
  }

  predicate RoleOk(holder: Option<nat>, awake: Option<nat>, i: nat, pc: Pc)
  {
    (Holds(pc) <==> holder == Some(i)) && (Wakes(pc) <==> awake == Some(i))
  }

  predicate Counted(word: Word, pcs: seq<Pc>)
  {
    word.waiters == Sum(pcs, Units)
  }

  /** What a task knows from its snapshot; queued says that the queue is not empty. */
  predicate PcOk(word: Word, queued: bool, pc: Pc)
  {
    match pc
    case Parked(snap, _) => snap.word.locked
    case Retry(snap) => snap.word.locked || snap.word.waiters > 0
    case UnlockTry(snap) => Sees(word, queued, snap)
    case UnlockGuard(snap) => Sees(word, queued, snap) && !snap.word.waking && snap.word.waiters > 0
    case UnlockBorrow(snap) => Sees(word, queued, snap) && !snap.word.waking && snap.word.waiters > 0
    case UnlockDecide(snap, had) =>
      && Sees(word, queued, snap) && !snap.word.waking && snap.word.waiters > 0
      && had == queued && (!had ==> snap.inbox.Some?)
    case Return => false
    case Crashed => false
    case _ => true
  }

  /** What the holder sees stays true while it holds the mutex: nobody announces a
    wake-up, and a waiter is in the inbox or in the queue. */
  predicate Sees(word: Word, queued: bool, snap: Snap<Word>)
  {
    !snap.word.waking && snap.word.waiters > 0 ==>
      !word.waking && word.waiters > 0 && (snap.inbox.Some? || queued)
  }

  predicate Local(word: Word, queued: bool, pcs: seq<Pc>)
  {
    forall i :: 0 <= i < |pcs| ==> PcOk(word, queued, pcs[i])
  }

  /** An unlocked mutex with waiters has one of them on its way. */
  predicate Live(word: Word)
  {
    !word.locked && word.waiters > 0 ==> word.waking
  }

  predicate Queued(f: Futex)
  {
    Front(f) != []
  }

  ghost predicate Inv(s: State)
  {
    && Law(s.futex, s.pcs)
    && Roles(s.word, s.holder, s.awake, s.pcs)
    && Counted(s.word, s.pcs)
    && Local(s.word, Queued(s.futex), s.pcs)
    && Live(s.word)
  }

  // ----- reading the invariant -----

  lemma {:induction false} TaskAt(s: State, t: nat)
    requires Inv(s) && t < |s.pcs|
    ensures PcOk(s.word, Queued(s.futex), s.pcs[t])
    ensures RoleOk(s.holder, s.awake, t, s.pcs[t])
    ensures s.word.locked == s.holder.Some? && s.word.waking == s.awake.Some?
    ensures Units(s.pcs[t]) <= s.word.waiters
  {
    SumAt(s.pcs, Units, t);
  }

  // ----- how each part follows a step of one task -----

  lemma {:induction false} RolesFollow(word: Word, holder: Option<nat>, awake: Option<nat>, pcs: seq<Pc>, t: nat,
                                       word': Word, holder': Option<nat>, awake': Option<nat>, pc: Pc)
    requires Roles(word, holder, awake, pcs) && t < |pcs|
    requires word'.locked == holder'.Some? && word'.waking == awake'.Some?
    requires holder' == holder || (holder' == None && holder == Some(t)) || (holder' == Some(t) && holder == None)
    requires awake' == awake || (awake' == None && awake == Some(t)) || (awake' == Some(t) && awake == None)
    requires RoleOk(holder', awake', t, pc)
    ensures Roles(word', holder', awake', pcs[t := pc])
  {
    var pcs' := pcs[t := pc];
    forall i | 0 <= i < |pcs|
      ensures RoleOk(holder', awake', i, pcs'[i])
    {
      assert RoleOk(holder, awake, i, pcs[i]);
    }
  }

  lemma {:induction false} CountFollows(word: Word, pcs: seq<Pc>, t: nat, word': Word, pc: Pc)
    requires Counted(word, pcs) && t < |pcs|
    requires word'.waiters + Units(pcs[t]) == word.waiters + Units(pc)
    ensures Counted(word', pcs[t := pc])
  {
    SumUpdate(pcs, Units, t, pc);
  }

  /** Nobody but the holder relies on word and queue. */
  lemma {:induction false} LocalFollows(word: Word, queued: bool, holder: Option<nat>, awake: Option<nat>, pcs: seq<Pc>,
                                        t: nat, word': Word, queued': bool, pc: Pc)
    requires Local(word, queued, pcs) && Roles(word, holder, awake, pcs) && t < |pcs|
    requires PcOk(word', queued', pc)
    requires holder == Some(t) || holder == None
          || (queued' == queued && (word'.waking ==> word.waking) && word'.waiters >= word.waiters)
    ensures Local(word', queued', pcs[t := pc])
  {
    var pcs' := pcs[t := pc];
    forall i | 0 <= i < |pcs|
      ensures PcOk(word', queued', pcs'[i])
    {
      assert PcOk(word, queued, pcs[i]) && RoleOk(holder, awake, i, pcs[i]);
    }
  }

  /** A step of one task; the lemmas above say what it has to show. */
  lemma {:induction false} MoveKeeps(s: State, t: nat, word: Word, f: Futex, holder: Option<nat>, awake: Option<nat>,
          pc: Pc)
    requires Inv(s) && t < |s.pcs| && Law(f, s.pcs[t := pc])
    requires word.locked == holder.Some? && word.waking == awake.Some? && Live(word)
    requires holder == s.holder || (holder == None && s.holder == Some(t)) || (holder == Some(t) && s.holder == None)
    requires awake == s.awake || (awake == None && s.awake == Some(t)) || (awake == Some(t) && s.awake == None)
    requires RoleOk(holder, awake, t, pc) && PcOk(word, Queued(f), pc)
    requires word.waiters + Units(s.pcs[t]) == s.word.waiters + Units(pc)
    requires s.holder == Some(t) || s.holder == None
          || (Queued(f) == Queued(s.futex) && (word.waking ==> s.word.waking) && word.waiters >= s.word.waiters)
    ensures Inv(State(word, f, s.pcs[t := pc], holder, awake))
  {
    hide Law, Roles, Counted, Local, RoleOk, PcOk, Queued, Units, Live;
    RolesFollow(s.word, s.holder, s.awake, s.pcs, t, word, holder, awake, pc);
    CountFollows(s.word, s.pcs, t, word, pc);
    LocalFollows(s.word, Queued(s.futex), s.holder, s.awake, s.pcs, t, word, Queued(f), pc);
  }

  lemma {:induction false} StayLawful(f: Futex, pcs: seq<Pc>, t: nat, pc: Pc)
    requires Law(f, pcs) && t < |pcs| && PartOf(pc) == PartOf(pcs[t])
    ensures Law(f, pcs[t := pc])
  {
    hide Lawful, PartOf;
    PartsUpdate(pcs, t, pc);
    assert Parts(pcs[t := pc]) == Parts(pcs);
  }

  lemma {:induction false} LawHolds(s: State)
    requires Inv(s)
    ensures Law(s.futex, s.pcs) && Live(s.word)
  {
  }

  // ----- lock -----

  lemma {:induction false} ParkLawful(f: Futex, pcs: seq<Pc>, t: nat, snap: Snap<Word>)
    requires Law(f, pcs) && t < |pcs| && (pcs[t].LockTry? || pcs[t].Retry?)
    ensures Law(Push(f, Waiter(t, 0)), pcs[t := Parked(snap, false)])
    ensures Queued(Push(f, Waiter(t, 0))) == Queued(f)
  {
    PartsUpdate(pcs, t, Parked(snap, false));
    ParkLaw(f, Parts(pcs), t, 0, PartOf(Parked(snap, false)));
    hide Lawful;
  }

  lemma {:induction false} LockTryKeeps(s: State, t: nat, c: Choice, snap: Snap<Word>)
    requires Inv(s) && t < |s.pcs| && s.pcs[t] == LockTry(snap)
    ensures Inv(StepLockTry(s, t, c, snap))
  {
    hide Inv, Law, Queued;
    LawHolds(s);
    TaskAt(s, t);
    if !Swaps(s, snap, c) {
      StayLawful(s.futex, s.pcs, t, LockTry(Current(s)));
      MoveKeeps(s, t, s.word, s.futex, s.holder, s.awake, LockTry(Current(s)));
    } else if snap.word.locked {
      ParkLawful(s.futex, s.pcs, t, snap);
      MoveKeeps(s, t, snap.word.(waiters := snap.word.waiters + 1), Push(s.futex, Waiter(t, 0)), s.holder, s.awake,
                Parked(snap, false));
    } else {
      StayLawful(s.futex, s.pcs, t, Held);
      MoveKeeps(s, t, snap.word.(locked := true), s.futex, Some(t), s.awake, Held);
    }
  }

  lemma {:induction false} RetryKeeps(s: State, t: nat, c: Choice, snap: Snap<Word>)
    requires Inv(s) && t < |s.pcs| && s.pcs[t] == Retry(snap)
    ensures Inv(StepRetry(s, t, c, snap))
  {
    hide Inv, Law, Queued;
    LawHolds(s);
    TaskAt(s, t);
    if !Swaps(s, snap, c) {
      StayLawful(s.futex, s.pcs, t, Retry(Current(s)));
      MoveKeeps(s, t, s.word, s.futex, s.holder, s.awake, Retry(Current(s)));
    } else if snap.word.locked {
      ParkLawful(s.futex, s.pcs, t, snap);
      MoveKeeps(s, t, snap.word.(waking := false), Push(s.futex, Waiter(t, 0)), s.holder, None, Parked(snap, false));
    } else {
      StayLawful(s.futex, s.pcs, t, Held);
      MoveKeeps(s, t, Word(true, false, snap.word.waiters - 1), s.futex, Some(t), None, Held);
    }
  }

  // ----- unlock -----

  /** With no wake-up announced every waiter sleeps in the inbox or in the queue. */
  lemma {:induction false} WaiterListed(s: State)
    requires Inv(s) && !s.word.waking && s.word.waiters > 0
    ensures s.futex.inbox != [] || Queued(s.futex)
  {
    var k := SumPick(s.pcs, Units);
    assert RoleOk(s.holder, s.awake, k, s.pcs[k]);
    var parts := Parts(s.pcs);
    forall i | 0 <= i < |parts|
      ensures HandOf(parts[i]) == multiset{}
    {
      assert RoleOk(s.holder, s.awake, i, s.pcs[i]);
    }
    GatherEmpty(parts, HandOf);
    SleeperFound(s.futex, parts, k);
  }

  /** What the holder sees when it looks at the word. */
  lemma {:induction false} HolderSees(s: State)
    requires Inv(s)
    ensures Sees(s.word, Queued(s.futex), Current(s))
  {
    if !s.word.waking && s.word.waiters > 0 {
      WaiterListed(s);
    }
  }

  lemma {:induction false} LookKeeps(s: State, t: nat)
    requires Inv(s) && t < |s.pcs| && (s.pcs[t].Held? || s.pcs[t].UnlockTry?)
    ensures Inv(Goto(s, t, UnlockTry(Current(s))))
  {
    hide Inv, Law, Queued, Sees;
    LawHolds(s);
    TaskAt(s, t);
    HolderSees(s);
    StayLawful(s.futex, s.pcs, t, UnlockTry(Current(s)));
    MoveKeeps(s, t, s.word, s.futex, s.holder, s.awake, UnlockTry(Current(s)));
  }

  lemma {:induction false} UnlockTryKeeps(s: State, t: nat, c: Choice, snap: Snap<Word>)
    requires Inv(s) && t < |s.pcs| && s.pcs[t] == UnlockTry(snap)
    ensures Inv(StepUnlockTry(s, t, c, snap))
  {
    hide Inv, Law, Queued;
    LawHolds(s);
    TaskAt(s, t);
    if !snap.word.waking && snap.word.waiters != 0 {
      StayLawful(s.futex, s.pcs, t, UnlockGuard(snap));
      MoveKeeps(s, t, s.word, s.futex, s.holder, s.awake, UnlockGuard(snap));
    } else if Swaps(s, snap, c) {
      StayLawful(s.futex, s.pcs, t, Idle);
      MoveKeeps(s, t, snap.word.(locked := false), s.futex, None, s.awake, Idle);
    } else {
      LookKeeps(s, t);
    }
  }

  lemma {:induction false} ShareLawful(f: Futex, pcs: seq<Pc>, t: nat, snap: Snap<Word>)
    requires Law(f, pcs) && t < |pcs| && pcs[t] == UnlockGuard(snap) && !f.exclusive
    ensures Law(Share(f), pcs[t := UnlockBorrow(snap)])
  {
    hide Lawful;
    PartsUpdate(pcs, t, UnlockBorrow(snap));
    ShareLaw(f, Parts(pcs), t);
  }

  lemma {:induction false} LeaveLawful(f: Futex, pcs: seq<Pc>, t: nat)
    requires Law(f, pcs) && t < |pcs| && pcs[t] == Leave
    ensures Law(Unshare(f), pcs[t := Idle])
  {
    hide Lawful;
    PartsUpdate(pcs, t, Idle);
    UnshareLaw(f, Parts(pcs), t);
  }

  lemma {:induction false} DropLawful(f: Futex, pcs: seq<Pc>, t: nat, w: Waiter)
    requires Law(f, pcs) && t < |pcs| && pcs[t] == HandDrop(w)
    ensures Law(DropBorrow(f), pcs[t := HandWake(w)])
  {
    hide Lawful;
    PartsUpdate(pcs, t, HandWake(w));
    DropBorrowLaw(f, Parts(pcs), t);
  }

  /** The queue belongs to the holder that decides, or to the one who carries the wake-up. */
  lemma {:induction false} NobodyBorrows(s: State, t: nat)
    requires Inv(s) && t < |s.pcs| && s.pcs[t].UnlockBorrow?
    ensures forall i :: 0 <= i < |s.pcs| ==> Parts(s.pcs)[i].borrow == 0
  {
    hide Law, Lawful;
    TaskAt(s, t);
    forall i | 0 <= i < |s.pcs|
      ensures PartOf(s.pcs[i]).borrow == 0
    {
      TaskAt(s, i);
    }
  }

  lemma {:induction false} BorrowLawful(s: State, t: nat, snap: Snap<Word>, queued: bool)
    requires Inv(s) && t < |s.pcs| && s.pcs[t] == UnlockBorrow(snap)
    ensures !s.futex.borrowed && Law(TakeBorrow(s.futex), s.pcs[t := UnlockDecide(snap, queued)])
  {
    hide Lawful;
    NobodyBorrows(s, t);
    PartsUpdate(s.pcs, t, UnlockDecide(snap, queued));
    TakeBorrowLaw(s.futex, Parts(s.pcs), t);
  }

  lemma {:induction false} BorrowKeeps(s: State, t: nat, snap: Snap<Word>)
    requires Inv(s) && t < |s.pcs| && s.pcs[t] == UnlockBorrow(snap)
    ensures !s.futex.borrowed
    ensures Inv(Goto(s, t, UnlockDecide(snap, Queued(s.futex))).(futex := TakeBorrow(s.futex)))
  {
    hide Inv, Law;
    LawHolds(s);
    TaskAt(s, t);
    BorrowLawful(s, t, snap, Queued(s.futex));
    MoveKeeps(s, t, s.word, TakeBorrow(s.futex), s.holder, s.awake, UnlockDecide(snap, Queued(s.futex)));
  }

  lemma {:induction false} PopLawful(f: Futex, g: Futex, pcs: seq<Pc>, t: nat)
    requires Law(f, pcs) && t < |pcs| && pcs[t].UnlockDecide? && (g == f || g == Enqueue(f)) && Queued(g)
    ensures Law(Pop(g, 0, 1), pcs[t := HandDrop(g.queues[0][0])])
  {
    hide Lawful;
    var w := g.queues[0][0];
    EnqueueLaw(f, Parts(pcs));
    assert g.queues[0][..1] == [w];
    PartsUpdate(pcs, t, HandDrop(w));
    PopLaw(g, Parts(pcs), t, 0, 1, PartOf(HandDrop(w)));
  }

  /** Unlocking announces one wake-up and takes one waiter into the hand. */
  lemma {:induction false} AnnounceKeeps(s: State, t: nat, snap: Snap<Word>, queued: bool, g: Futex)
    requires Inv(s) && t < |s.pcs| && s.pcs[t] == UnlockDecide(snap, queued) && snap == Current(s)
    requires (g == s.futex || g == Enqueue(s.futex)) && Queued(g)
    ensures Inv(Announce(s, t, snap, g))
  {
    hide Inv, Law, Enqueue, Pop;
    LawHolds(s);
    TaskAt(s, t);
    PopLawful(s.futex, g, s.pcs, t);
    MoveKeeps(s, t, snap.word.(locked := false, waking := true), Pop(g, 0, 1), None, Some(t), HandDrop(g.queues[0][0]));
  }

  lemma {:induction false} InboxQueued(s: State)
    requires Inv(s) && s.futex.inbox != []
    ensures Queued(Enqueue(s.futex))
  {
    SingleQueue(s.futex, Parts(s.pcs));
  }

  lemma {:induction false} DecideAgain(s: State, t: nat, snap: Snap<Word>, queued: bool)
    requires Inv(s) && t < |s.pcs| && s.pcs[t] == UnlockDecide(snap, queued)
    ensures Inv(Goto(s, t, UnlockDecide(Current(s), queued)))
  {
    hide Inv, Law, Queued;
    LawHolds(s);
    TaskAt(s, t);
    HolderSees(s);
    StayLawful(s.futex, s.pcs, t, UnlockDecide(Current(s), queued));
    MoveKeeps(s, t, s.word, s.futex, s.holder, s.awake, UnlockDecide(Current(s), queued));
  }

  lemma {:induction false} UnlockDecideKeeps(s: State, t: nat, c: Choice, snap: Snap<Word>, queued: bool)
    requires Inv(s) && t < |s.pcs| && s.pcs[t] == UnlockDecide(snap, queued)
    ensures Inv(StepUnlockDecide(s, t, c, snap, queued))
  {
    hide Inv, Announce, Queued, Enqueue;
    TaskAt(s, t);
    if !Swaps(s, snap, c) {
      DecideAgain(s, t, snap, queued);
    } else if queued {
      AnnounceKeeps(s, t, snap, queued, s.futex);
    } else {
      InboxQueued(s);
      AnnounceKeeps(s, t, snap, queued, Enqueue(s.futex));
    }
  }

  // ----- waking -----

  lemma {:induction false} HandAsleep(s: State, t: nat, w: Waiter)
    requires Inv(s) && t < |s.pcs| && s.pcs[t] == HandWake(w)
    ensures w.task < |s.pcs| && w.task != t && s.pcs[w.task].Parked? && !s.pcs[w.task].woken
  {
    PartsUpdate(s.pcs, t, s.pcs[t]);
    assert Parts(s.pcs)[t].hand == [w];
    HandSleeps(s.futex, Parts(s.pcs), t);
    assert Parts(s.pcs)[w.task] == PartOf(s.pcs[w.task]);
  }

  lemma {:induction false} WakeLawful(f: Futex, pcs: seq<Pc>, t: nat, w: Waiter)
    requires Law(f, pcs) && t < |pcs| && pcs[t] == HandWake(w)
    requires w.task < |pcs| && w.task != t && pcs[w.task].Parked? && !pcs[w.task].woken
    ensures Law(f, pcs[t := Leave][w.task := Parked(pcs[w.task].snap, true)])
  {
    var awake := Parked(pcs[w.task].snap, true);
    PartsUpdate(pcs, t, Leave);
    PartsUpdate(pcs[t := Leave], w.task, awake);
    assert Parts(pcs)[t].hand == [w];
    WakeLaw(f, Parts(pcs), t, PartOf(Leave), PartOf(awake));
    hide Lawful;
  }

  lemma {:induction false} WakeRoles(word: Word, holder: Option<nat>, pcs: seq<Pc>, t: nat, k: nat, next: Pc, awake: Pc)
    requires Roles(word, holder, Some(t), pcs) && t < |pcs| && k < |pcs| && k != t
    requires !Holds(pcs[t]) && !Holds(pcs[k]) && !Holds(next) && !Holds(awake) && !Wakes(next) && Wakes(awake)
    ensures Roles(word, holder, Some(k), pcs[t := next][k := awake])
  {
    var pcs' := pcs[t := next][k := awake];
    assert RoleOk(holder, Some(t), t, pcs[t]) && RoleOk(holder, Some(t), k, pcs[k]);
    forall i | 0 <= i < |pcs|
      ensures RoleOk(holder, Some(k), i, pcs'[i])
    {
      assert RoleOk(holder, Some(t), i, pcs[i]);
    }
  }

  lemma {:induction false} WakeLocal(word: Word, queued: bool, pcs: seq<Pc>, t: nat, k: nat, next: Pc, awake: Pc)
    requires Local(word, queued, pcs) && t < |pcs| && k < |pcs|
    requires PcOk(word, queued, next) && PcOk(word, queued, awake)
    ensures Local(word, queued, pcs[t := next][k := awake])
  {
  }

  lemma {:induction false} WakeKeeps(s: State, t: nat, w: Waiter)
    requires Inv(s) && t < |s.pcs| && s.pcs[t] == HandWake(w)
    ensures Inv(Wake(s, t, w))
  {
    hide Law, Roles, Counted, Local, Queued, RoleOk, Live;
    HandAsleep(s, t, w);
    TaskAt(s, t);
    TaskAt(s, w.task);
    HandAwake(s, t);
    var awake := Parked(s.pcs[w.task].snap, true);
    WakeLawful(s.futex, s.pcs, t, w);
    WakeRoles(s.word, s.holder, s.pcs, t, w.task, Leave, awake);
    CountFollows(s.word, s.pcs, t, s.word, Leave);
    CountFollows(s.word, s.pcs[t := Leave], w.task, s.word, awake);
    WakeLocal(s.word, Queued(s.futex), s.pcs, t, w.task, Leave, awake);
  }

  lemma {:induction false} HandAwake(s: State, t: nat)
    requires Inv(s) && t < |s.pcs| && Wakes(s.pcs[t])
    ensures s.awake == Some(t) && s.word.waking
  {
    TaskAt(s, t);
  }

  // ----- every step, every run -----

  lemma {:induction false} LockStepKeeps(s: State, t: nat, c: Choice)
    requires Inv(s) && t < |s.pcs| && !Holds(s.pcs[t]) && !s.pcs[t].HandDrop? && !s.pcs[t].HandWake? && !s.pcs[t].Leave?
    ensures Inv(Step(s, t, c))
  {
    hide Inv, Law, Queued, StepLockTry, StepRetry;
    LawHolds(s);
    TaskAt(s, t);
    match s.pcs[t]
    case Idle =>
      if c.start {
        StayLawful(s.futex, s.pcs, t, LockTry(Current(s)));
        MoveKeeps(s, t, s.word, s.futex, s.holder, s.awake, LockTry(Current(s)));
      }
    case LockTry(snap) => LockTryKeeps(s, t, c, snap);
    case Parked(snap, woken) =>
      if woken {
        StayLawful(s.futex, s.pcs, t, Retry(snap));
        MoveKeeps(s, t, s.word, s.futex, s.holder, s.awake, Retry(snap));
      }
    case Retry(snap) => RetryKeeps(s, t, c, snap);
  }

  lemma {:induction false} UnlockStepKeeps(s: State, t: nat, c: Choice)
    requires Inv(s) && t < |s.pcs| && Holds(s.pcs[t])
    ensures Inv(Step(s, t, c))
  {
    hide Inv, Law, Front, StepUnlockTry, StepUnlockDecide;
    LawHolds(s);
    TaskAt(s, t);
    match s.pcs[t]
    case Held => LookKeeps(s, t);
    case UnlockTry(snap) => UnlockTryKeeps(s, t, c, snap);
    case UnlockGuard(snap) =>
      if !s.futex.exclusive {
        ShareLawful(s.futex, s.pcs, t, snap);
        SameFront(s.futex);
        MoveKeeps(s, t, s.word, Share(s.futex), s.holder, s.awake, UnlockBorrow(snap));
      }
    case UnlockBorrow(snap) => BorrowKeeps(s, t, snap);
    case UnlockDecide(snap, queued) => UnlockDecideKeeps(s, t, c, snap, queued);
  }

  lemma {:induction false} SameFront(f: Futex)
    ensures Front(Share(f)) == Front(f) == Front(Unshare(f)) == Front(DropBorrow(f))
  {
  }

  lemma {:induction false} HandStepKeeps(s: State, t: nat, c: Choice)
    requires Inv(s) && t < |s.pcs| && (s.pcs[t].HandDrop? || s.pcs[t].HandWake? || s.pcs[t].Leave?)
    ensures Inv(Step(s, t, c))
  {
    hide Inv, Law, Front, Wake;
    LawHolds(s);
    TaskAt(s, t);
    SameFront(s.futex);
    match s.pcs[t]
    case HandDrop(w) =>
      DropLawful(s.futex, s.pcs, t, w);
      MoveKeeps(s, t, s.word, DropBorrow(s.futex), s.holder, s.awake, HandWake(w));
    case HandWake(w) => WakeKeeps(s, t, w);
    case Leave =>
      LeaveLawful(s.futex, s.pcs, t);
      MoveKeeps(s, t, s.word, Unshare(s.futex), s.holder, s.awake, Idle);
  }

  lemma {:induction false} StepKeeps(s: State, t: nat, c: Choice)
    requires Inv(s) && t < |s.pcs|
    ensures Inv(Step(s, t, c))
  {
    hide Inv, Step;
    if Holds(s.pcs[t]) {
      UnlockStepKeeps(s, t, c);
    } else if s.pcs[t].HandDrop? || s.pcs[t].HandWake? || s.pcs[t].Leave? {
      HandStepKeeps(s, t, c);
    } else {
      LockStepKeeps(s, t, c);
    }
  }

  lemma {:induction false} InitKeeps(tasks: nat)
    ensures Inv(Init(tasks))
  {
    NewLaw(1, Parts(Init(tasks).pcs));
    SumZero(Init(tasks).pcs, Units);
    hide Lawful;
  }

  /** Every reachable state, for any number of tasks and any interleaving. */
  lemma {:induction false} RunKeeps(tasks: nat, schedule: seq<(nat, Choice)>)
    ensures Inv(Run(Init(tasks), schedule))
    decreases |schedule|
  {
    hide Inv;
    if schedule == [] {
      InitKeeps(tasks);
    } else {
      var last := |schedule| - 1;
      RunKeeps(tasks, schedule[..last]);
      var p := Run(Init(tasks), schedule[..last]);
      var (t, c) := schedule[last];
      if t < |p.pcs| {
        StepKeeps(p, t, c);
      }
    }
  }

  // ----- what the mutex promises -----

  lemma {:induction false} StepKeepsTasks(s: State, t: nat, c: Choice)
    requires t < |s.pcs|
    ensures |Step(s, t, c).pcs| == |s.pcs|
  {
  }

  lemma {:induction false} RunTasks(tasks: nat, schedule: seq<(nat, Choice)>)
    ensures |Run(Init(tasks), schedule).pcs| == tasks
    decreases |schedule|
  {
    hide Step;
    if schedule != [] {
      var last := |schedule| - 1;
      RunTasks(tasks, schedule[..last]);
      var p := Run(Init(tasks), schedule[..last]);
      var (t, c) := schedule[last];
      if t < |p.pcs| {
        StepKeepsTasks(p, t, c);
      }
    }
  }

  /** At most one task has the mutex, and the word says locked exactly while one has. */
  lemma {:induction false} MutualExclusion(tasks: nat, schedule: seq<(nat, Choice)>, i: nat, j: nat)
    requires var s := Run(Init(tasks), schedule);
             i < |s.pcs| && j < |s.pcs| && Holds(s.pcs[i]) && Holds(s.pcs[j])
    ensures i == j && Run(Init(tasks), schedule).word.locked
  {
    hide Run, Init, Inv;
    RunKeeps(tasks, schedule);
    TaskAt(Run(Init(tasks), schedule), i);
    TaskAt(Run(Init(tasks), schedule), j);
  }

  /** waiters counts the sleeping tasks and the woken one; waking covers exactly one
    dequeue or wake in progress. */
  lemma {:induction false} WordIsExact(tasks: nat, schedule: seq<(nat, Choice)>, i: nat, j: nat)
    requires var s := Run(Init(tasks), schedule); i < |s.pcs| && j < |s.pcs|
    ensures var s := Run(Init(tasks), schedule);
            && s.word.waiters == Sum(s.pcs, Units)
            && (Wakes(s.pcs[i]) ==> s.word.waking)
            && (Wakes(s.pcs[i]) && Wakes(s.pcs[j]) ==> i == j)
            && (s.word.waking ==> s.awake.Some? && s.awake.value < |s.pcs| && Wakes(s.pcs[s.awake.value]))
  {
    hide Run, Init, Law;
    RunKeeps(tasks, schedule);
    var s := Run(Init(tasks), schedule);
    TaskAt(s, i);
    TaskAt(s, j);
    if s.awake.Some? {
      TaskAt(s, s.awake.value);
    }
  }

  /** No subtraction, unwrap, panic or second borrow of the code is ever reached, and
    neither is the branch of unlock for a mutex that turns out to have no waiters. */
  lemma {:induction false} NeverCrashes(tasks: nat, schedule: seq<(nat, Choice)>, i: nat)
    requires i < |Run(Init(tasks), schedule).pcs|
    ensures var pc := Run(Init(tasks), schedule).pcs[i];
            && !pc.Crashed? && !pc.Return?
            && (pc.UnlockDecide? ==> (pc.queued || pc.snap.inbox.Some?) && !pc.snap.word.waking)
  {
    hide Run, Init, Inv;
    RunKeeps(tasks, schedule);
    TaskAt(Run(Init(tasks), schedule), i);
  }

  /** An unlocked mutex with waiters has a wake-up on its way; so when no task is at work,
    nobody is left asleep. */
  lemma {:induction false} NoLostWakeup(tasks: nat, schedule: seq<(nat, Choice)>)
    requires var s := Run(Init(tasks), schedule);
             forall i :: 0 <= i < |s.pcs| ==> s.pcs[i].Idle? || (s.pcs[i].Parked? && !s.pcs[i].woken)
    ensures var s := Run(Init(tasks), schedule);
            s.word == Word(false, false, 0) && forall i :: 0 <= i < |s.pcs| ==> s.pcs[i] == Idle
  {
    hide Run, Init;
    RunKeeps(tasks, schedule);
    RestIsFree(Run(Init(tasks), schedule));
  }

  lemma {:induction false} RestIsFree(s: State)
    requires Inv(s)
    requires forall i :: 0 <= i < |s.pcs| ==> s.pcs[i].Idle? || (s.pcs[i].Parked? && !s.pcs[i].woken)
    ensures s.word == Word(false, false, 0) && forall i :: 0 <= i < |s.pcs| ==> s.pcs[i] == Idle
  {
    hide Law;
    if s.holder.Some? {
      TaskAt(s, s.holder.value);
    }
    if s.awake.Some? {
      TaskAt(s, s.awake.value);
    }
    forall i | 0 <= i < |s.pcs|
      ensures s.pcs[i] == Idle
    {
      TaskAt(s, i);
    }
  }
}
