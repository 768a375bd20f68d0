/** The discipline every client of a futex keeps, whatever its word means.

  Each task has a part in the futex: the queue it sleeps on, the waiters it has
  popped and not woken yet, the guards it holds. The law is that a sleeping task is
  in exactly one list, once, and that the guard counts and flags are the sums of the
  parts. Each lemma shows one futex operation to keep the law.
 */
module FutexLaws {
  import opened Counting
  import opened Futex
  import opened Options
  import opened Sequences

  /** waits: the queue the task sleeps on, while its waker slot is still Waiting.
    away: the task cancels its wait and has seen the inbox empty. */
  datatype Part = Part(
    waits: Option<nat>,
    hand: seq<Waiter>,
    guard: nat,
    borrow: nat,
    exclusive: nat,
    away: bool)

  const OUTSIDE := Part(None, [], 0, 0, 0, false)

  function GuardOf(part: Part): nat { part.guard }

  function BorrowOf(part: Part): nat { part.borrow }

  function ExclusiveOf(part: Part): nat { part.exclusive }

  function HandOf(part: Part): multiset<Waiter> { multiset(part.hand) }

  predicate Waits(parts: seq<Part>, w: Waiter)
  {
    w.task < |parts| && parts[w.task].waits == Some(w.queue)
  }

  /** listed holds every sleeping task exactly once, and nobody else. */
  ghost predicate Tally(listed: multiset<Waiter>, parts: seq<Part>)
  {
    forall w: Waiter :: listed[w] == if Waits(parts, w) then 1 else 0
  }

  /** The waiters of a futex and those in flight. */
  function Listed(f: Futex, parts: seq<Part>): multiset<Waiter>
  {
    Lists(f) + Gather(parts, HandOf)
  }

  predicate Tagged(f: Futex)
  {
    forall q, i :: 0 <= q < |f.queues| && 0 <= i < |f.queues[q]| ==> f.queues[q][i].queue == q
  }

  ghost predicate Locked(f: Futex, parts: seq<Part>)
  {
    && f.guards == Sum(parts, GuardOf)
    && (if f.exclusive then 1 else 0) == Sum(parts, ExclusiveOf)
    && (if f.borrowed then 1 else 0) == Sum(parts, BorrowOf)
    && (f.exclusive ==> f.guards == 0)
  }

  ghost predicate Away(f: Futex, parts: seq<Part>)
  {
    forall i, q :: 0 <= i < |parts| && parts[i].away ==> Waiter(i, q) !in f.inbox
  }

  /** Waiters are popped and kept under a guard only. */
  predicate PartOk(part: Part, queues: nat)
  {
    && (part.hand != [] || part.borrow > 0 ==> part.guard > 0)
    && (part.waits.Some? ==> part.hand == [] && part.waits.value < queues)
  }

  predicate PartsOk(parts: seq<Part>, queues: nat)
  {
    forall i :: 0 <= i < |parts| ==> PartOk(parts[i], queues)
  }

  ghost predicate Lawful(f: Futex, parts: seq<Part>)
  {
    && Tally(Listed(f, parts), parts)
    && Tagged(f)
    && Locked(f, parts)
    && Away(f, parts)
    && PartsOk(parts, |f.queues|)
  }

  // ----- the tally -----

  lemma {:induction false} TallySame(listed: multiset<Waiter>, parts: seq<Part>, t: nat, part: Part)
    requires Tally(listed, parts) && t < |parts| && part.waits == parts[t].waits
    ensures Tally(listed, parts[t := part])
  {
    forall w: Waiter
      ensures Waits(parts[t := part], w) == Waits(parts, w)
    {
    }
  }

  lemma {:induction false} TallyStart(listed: multiset<Waiter>, parts: seq<Part>, t: nat, part: Part)
    requires Tally(listed, parts) && t < |parts| && parts[t].waits.None? && part.waits.Some?
    ensures Tally(listed + multiset{Waiter(t, part.waits.value)}, parts[t := part])
  {
    var v := Waiter(t, part.waits.value);
    forall w: Waiter
      ensures Waits(parts[t := part], w) <==> Waits(parts, w) || w == v
      ensures w == v ==> !Waits(parts, w)
    {
    }
  }

  lemma {:induction false} TallyStop(listed: multiset<Waiter>, parts: seq<Part>, t: nat, part: Part)
    requires Tally(listed, parts) && t < |parts| && parts[t].waits.Some? && part.waits.None?
    ensures Waiter(t, parts[t].waits.value) in listed
    ensures Tally(listed - multiset{Waiter(t, parts[t].waits.value)}, parts[t := part])
  {
    var v := Waiter(t, parts[t].waits.value);
    assert Waits(parts, v);
    forall w: Waiter
      ensures Waits(parts[t := part], w) <==> Waits(parts, w) && w != v
    {
    }
  }

  // ----- guards and borrow -----

  predicate LocksFollow(f: Futex, f': Futex, was: Part, part: Part)
  {
    && f'.guards + was.guard == f.guards + part.guard
    && (if f'.exclusive then 1 else 0) + was.exclusive == (if f.exclusive then 1 else 0) + part.exclusive
    && (if f'.borrowed then 1 else 0) + was.borrow == (if f.borrowed then 1 else 0) + part.borrow
    && (f'.exclusive ==> f'.guards == 0 || (f.exclusive && f'.guards <= f.guards))
  }

  lemma {:induction false} LockedFollows(f: Futex, f': Futex, parts: seq<Part>, t: nat, part: Part)
    requires Locked(f, parts) && t < |parts| && LocksFollow(f, f', parts[t], part)
    ensures Locked(f', parts[t := part])
  {
    SumUpdate(parts, GuardOf, t, part);
    SumUpdate(parts, BorrowOf, t, part);
    SumUpdate(parts, ExclusiveOf, t, part);
  }

  /** A shared guard keeps the exclusive one out. */
  lemma {:induction false} GuardShares(f: Futex, parts: seq<Part>, t: nat)
    requires Locked(f, parts) && t < |parts| && parts[t].guard > 0
    ensures f.guards > 0 && !f.exclusive
  {
    SumAt(parts, GuardOf, t);
  }

  /** The exclusive guard keeps every shared one out, and with it every hand. */
  lemma {:induction false} ExclusiveAlone(f: Futex, parts: seq<Part>, t: nat)
    requires Locked(f, parts) && PartsOk(parts, |f.queues|) && t < |parts| && parts[t].exclusive > 0
    ensures f.exclusive && f.guards == 0
    ensures forall i :: 0 <= i < |parts| ==> parts[i].guard == 0 && parts[i].hand == [] && parts[i].borrow == 0
    ensures Gather(parts, HandOf) == multiset{}
  {
    SumAt(parts, ExclusiveOf, t);
    forall i | 0 <= i < |parts|
      ensures parts[i].guard == 0 && parts[i].hand == [] && parts[i].borrow == 0
    {
      SumAt(parts, GuardOf, i);
      assert PartOk(parts[i], |f.queues|);
    }
    GatherEmpty(parts, HandOf);
  }

  /** Nobody else has the borrow, so it is free for the taking. */
  lemma {:induction false} BorrowFree(f: Futex, parts: seq<Part>)
    requires Locked(f, parts) && forall i :: 0 <= i < |parts| ==> parts[i].borrow == 0
    ensures !f.borrowed
  {
    SumZero(parts, BorrowOf);
  }

  lemma {:induction false} BorrowHeld(f: Futex, parts: seq<Part>, t: nat)
    requires Locked(f, parts) && t < |parts| && parts[t].borrow > 0
    ensures f.borrowed
  {
    SumAt(parts, BorrowOf, t);
  }

  // ----- where waiters are -----

  lemma {:induction false} InListWaits(listed: multiset<Waiter>, parts: seq<Part>, w: Waiter)
    requires Tally(listed, parts) && w in listed
    ensures Waits(parts, w)
  {
  }

  lemma {:induction false} InQueueListed(f: Futex, q: nat, w: Waiter)
    requires q < |f.queues| && w in f.queues[q]
    ensures w in Lists(f)
  {
    GatherAt(f.queues, AsMultiset, q);
    assert w in AsMultiset(f.queues[q]);
  }

  /** A listed waiter sleeps: whoever is in the inbox, a queue or a hand. */
  lemma {:induction false} ListedWaits(f: Futex, parts: seq<Part>, w: Waiter)
    requires Tally(Listed(f, parts), parts)
    requires w in f.inbox || (exists q :: 0 <= q < |f.queues| && w in f.queues[q])
          || (exists i :: 0 <= i < |parts| && w in parts[i].hand)
    ensures Waits(parts, w)
  {
    if q :| 0 <= q < |f.queues| && w in f.queues[q] {
      InQueueListed(f, q, w);
    }
    if i :| 0 <= i < |parts| && w in parts[i].hand {
      GatherAt(parts, HandOf, i);
      assert w in HandOf(parts[i]);
    }
    InListWaits(Listed(f, parts), parts, w);
  }

  /** The inbox holds waiters of existing queues only. */
  lemma {:induction false} InboxFits(f: Futex, parts: seq<Part>)
    requires Tally(Listed(f, parts), parts) && PartsOk(parts, |f.queues|)
    ensures forall w :: w in f.inbox ==> w.queue < |f.queues|
  {
    forall w | w in f.inbox
      ensures w.queue < |f.queues|
    {
      ListedWaits(f, parts, w);
      assert PartOk(parts[w.task], |f.queues|);
    }
  }

  /** With nobody in flight a sleeping task is found in its queue once the inbox is taken. */
  lemma {:induction false} SleeperFound(f: Futex, parts: seq<Part>, k: nat)
    requires Tally(Listed(f, parts), parts) && Tagged(f) && PartsOk(parts, |f.queues|)
    requires Gather(parts, HandOf) == multiset{}
    requires k < |parts| && parts[k].waits.Some?
    ensures var q := parts[k].waits.value;
            q < |f.queues| && (Waiter(k, q) in f.inbox || Waiter(k, q) in f.queues[q])
            && Waiter(k, q) in f.queues[q] + OnQueue(f.inbox, q)
  {
    var w := Waiter(k, parts[k].waits.value);
    assert PartOk(parts[k], |f.queues|);
    assert Waits(parts, w);
    assert w in Listed(f, parts);
    OnQueueMember(f.inbox, w.queue, w);
    if w !in f.inbox {
      var q := GatherPick(f.queues, AsMultiset, w);
      assert w in f.queues[q];
    }
  }

  // ----- what holds of every share -----

  lemma {:induction false} PartsFollow(parts: seq<Part>, t: nat, part: Part, queues: nat)
    requires PartsOk(parts, queues) && t < |parts| && PartOk(part, queues)
    ensures PartsOk(parts[t := part], queues)
  {
  }

  /** The inbox loses waiters or gains the one of task t. */
  lemma {:induction false} AwayFollows(f: Futex, f': Futex, parts: seq<Part>, t: nat, part: Part)
    requires Away(f, parts) && t < |parts|
    requires f'.inbox == f.inbox || f'.inbox == [] || exists q :: f'.inbox == f.inbox + [Waiter(t, q)]
    requires part.away ==> f'.inbox == [] || (parts[t].away && f'.inbox == f.inbox)
    ensures Away(f', parts[t := part])
  {
  }

  lemma {:induction false} SameTagged(f: Futex, f': Futex)
    requires Tagged(f) && f'.queues == f.queues
    ensures Tagged(f')
  {
  }

  lemma {:induction false} NotInInbox(f: Futex, parts: seq<Part>, t: nat, q: nat)
    requires Away(f, parts) && t < |parts| && (parts[t].away || f.inbox == [])
    ensures Waiter(t, q) !in f.inbox
  {
  }

  lemma {:induction false} EnqueueAway(f: Futex, parts: seq<Part>)
    ensures Away(Enqueue(f), parts)
  {
  }

  lemma {:induction false} ParkAway(f: Futex, parts: seq<Part>, t: nat, q: nat, part: Part)
    requires Away(f, parts) && t < |parts| && !part.away
    ensures Away(Push(f, Waiter(t, q)), parts[t := part])
  {
    AwayFollows(f, Push(f, Waiter(t, q)), parts, t, part);
  }

  lemma {:induction false} PartAt(parts: seq<Part>, t: nat, queues: nat)
    requires PartsOk(parts, queues) && t < |parts|
    ensures PartOk(parts[t], queues)
  {
  }

  // ----- the laws -----

  /** A step of one task that moves no waiter: turning to another program point,
    taking or releasing a guard or the borrow. */
  lemma {:induction false} TurnLaw(f: Futex, f': Futex, parts: seq<Part>, t: nat, part: Part)
    requires Lawful(f, parts) && t < |parts|
    requires f' == f.(guards := f'.guards, exclusive := f'.exclusive, borrowed := f'.borrowed)
    requires part.waits == parts[t].waits && part.hand == parts[t].hand
    requires part.away ==> parts[t].away || f.inbox == []
    requires PartOk(part, |f.queues|)
    requires LocksFollow(f, f', parts[t], part)
    ensures Lawful(f', parts[t := part])
  {
    hide Tally, Locked, Away, PartsOk, Tagged;
    AwayFollows(f, f', parts, t, part);
    PartsFollow(parts, t, part, |f.queues|);
    SameTagged(f, f');
    LockedFollows(f, f', parts, t, part);
    GatherUpdate(parts, HandOf, t, part);
    assert Listed(f', parts[t := part]) == Listed(f, parts);
    TallySame(Listed(f, parts), parts, t, part);
  }

  /** A step that touches the futex not at all; a cancelled wait may see the inbox empty. */
  lemma {:induction false} StayLaw(f: Futex, parts: seq<Part>, t: nat, part: Part)
    requires Lawful(f, parts) && t < |parts|
    requires part == parts[t].(away := part.away)
    requires part.away ==> parts[t].away || f.inbox == []
    ensures Lawful(f, parts[t := part])
  {
    hide Tally, Locked, Away, Tagged;
    PartAt(parts, t, |f.queues|);
    TurnLaw(f, f, parts, t, part);
  }

  lemma {:induction false} ShareLaw(f: Futex, parts: seq<Part>, t: nat)
    requires Lawful(f, parts) && t < |parts| && !f.exclusive
    ensures Lawful(Share(f), parts[t := parts[t].(guard := parts[t].guard + 1)])
  {
    hide Tally, Locked, Away, Tagged;
    PartAt(parts, t, |f.queues|);
    TurnLaw(f, Share(f), parts, t, parts[t].(guard := parts[t].guard + 1));
  }

  lemma {:induction false} UnshareLaw(f: Futex, parts: seq<Part>, t: nat)
    requires Lawful(f, parts) && t < |parts|
    requires parts[t].guard > 0 && parts[t].hand == [] && parts[t].borrow == 0
    ensures Lawful(Unshare(f), parts[t := parts[t].(guard := parts[t].guard - 1)])
  {
    hide Tally, Locked, Away, Tagged;
    PartAt(parts, t, |f.queues|);
    GuardShares(f, parts, t);
    TurnLaw(f, Unshare(f), parts, t, parts[t].(guard := parts[t].guard - 1));
  }

  lemma {:induction false} ExcludeLaw(f: Futex, parts: seq<Part>, t: nat)
    requires Lawful(f, parts) && t < |parts| && parts[t].exclusive == 0 && !f.exclusive && f.guards == 0
    ensures Lawful(Exclude(f), parts[t := parts[t].(exclusive := 1)])
  {
    hide Tally, Locked, Away, Tagged;
    PartAt(parts, t, |f.queues|);
    TurnLaw(f, Exclude(f), parts, t, parts[t].(exclusive := 1));
  }

  lemma {:induction false} IncludeLaw(f: Futex, parts: seq<Part>, t: nat)
    requires Lawful(f, parts) && t < |parts| && parts[t].exclusive == 1
    ensures Lawful(Include(f), parts[t := parts[t].(exclusive := 0)])
  {
    hide Tally, Locked, Away, Tagged;
    ExclusiveAlone(f, parts, t);
    PartAt(parts, t, |f.queues|);
    TurnLaw(f, Include(f), parts, t, parts[t].(exclusive := 0));
  }

  /** The borrow is free if nobody has it, and then it can be taken. */
  lemma {:induction false} TakeBorrowLaw(f: Futex, parts: seq<Part>, t: nat)
    requires Lawful(f, parts) && t < |parts| && parts[t].guard > 0
    requires forall i :: 0 <= i < |parts| ==> parts[i].borrow == 0
    ensures !f.borrowed
    ensures Lawful(TakeBorrow(f), parts[t := parts[t].(borrow := 1)])
  {
    hide Tally, Locked, Away, Tagged;
    PartAt(parts, t, |f.queues|);
    BorrowFree(f, parts);
    TurnLaw(f, TakeBorrow(f), parts, t, parts[t].(borrow := 1));
  }

  lemma {:induction false} DropBorrowLaw(f: Futex, parts: seq<Part>, t: nat)
    requires Lawful(f, parts) && t < |parts| && parts[t].borrow == 1
    ensures Lawful(DropBorrow(f), parts[t := parts[t].(borrow := 0)])
  {
    hide Tally, Locked, Away, Tagged;
    PartAt(parts, t, |f.queues|);
    BorrowHeld(f, parts, t);
    TurnLaw(f, DropBorrow(f), parts, t, parts[t].(borrow := 0));
  }

  /** A successful wait puts the task to sleep in the inbox. */
  lemma {:induction false} ParkLaw(f: Futex, parts: seq<Part>, t: nat, q: nat, part: Part)
    requires Lawful(f, parts) && t < |parts| && q < |f.queues|
    requires parts[t].waits.None? && parts[t].hand == [] && !parts[t].away
    requires part == parts[t].(waits := Some(q))
    ensures Lawful(Push(f, Waiter(t, q)), parts[t := part])
  {
    hide Tally, Locked, Away, PartsOk, Tagged;
    ParkAway(f, parts, t, q, part);
    PartAt(parts, t, |f.queues|);
    PartsFollow(parts, t, part, |f.queues|);
    SameTagged(f, Push(f, Waiter(t, q)));
    var f' := Push(f, Waiter(t, q));
    LockedFollows(f, f', parts, t, part);
    GatherUpdate(parts, HandOf, t, part);
    PushLists(f, Waiter(t, q));
    assert Listed(f', parts[t := part]) == Listed(f, parts) + multiset{Waiter(t, q)};
    TallyStart(Listed(f, parts), parts, t, part);
  }

  lemma {:induction false} EnqueueTagged(f: Futex)
    requires Tagged(f)
    ensures Tagged(Enqueue(f))
  {
    var e := Enqueue(f);
    forall q, i | 0 <= q < |e.queues| && 0 <= i < |e.queues[q]|
      ensures e.queues[q][i].queue == q
    {
      if i >= |f.queues[q]| {
        OnQueueMember(f.inbox, q, e.queues[q][i]);
      }
    }
  }

  /** Taking the inbox keeps everybody listed. */
  lemma {:induction false} EnqueueLaw(f: Futex, parts: seq<Part>)
    requires Lawful(f, parts)
    ensures Lawful(Enqueue(f), parts)
  {
    hide Tally, Locked, Away, PartsOk, Tagged;
    EnqueueAway(f, parts);
    InboxFits(f, parts);
    EnqueueLists(f);
    EnqueueTagged(f);
    LockedSame(f, Enqueue(f), parts);
  }

  lemma {:induction false} LockedSame(f: Futex, f': Futex, parts: seq<Part>)
    requires Locked(f, parts)
    requires f'.guards == f.guards && f'.exclusive == f.exclusive && f'.borrowed == f.borrowed
    ensures Locked(f', parts)
  {
  }

  lemma {:induction false} PopTagged(f: Futex, q: nat, n: nat)
    requires Tagged(f) && q < |f.queues| && n <= |f.queues[q]|
    ensures Tagged(Pop(f, q, n))
  {
  }

  /** Popping moves the first n waiters of a queue to the hand of the task. */
  lemma {:induction false} PopLaw(f: Futex, parts: seq<Part>, t: nat, q: nat, n: nat, part: Part)
    requires Lawful(f, parts) && t < |parts| && q < |f.queues| && n <= |f.queues[q]|
    requires parts[t].hand == [] && parts[t].waits.None? && parts[t].guard > 0
    requires part == parts[t].(hand := f.queues[q][..n])
    ensures Lawful(Pop(f, q, n), parts[t := part])
  {
    hide Tally, Locked, Away, PartsOk, Tagged;
    AwayFollows(f, Pop(f, q, n), parts, t, part);
    PartAt(parts, t, |f.queues|);
    PartsFollow(parts, t, part, |f.queues|);
    var f' := Pop(f, q, n);
    LockedFollows(f, f', parts, t, part);
    GatherUpdate(parts, HandOf, t, part);
    PopLists(f, q, n);
    PopTagged(f, q, n);
    Handed(Lists(f'), Lists(f), multiset(f.queues[q][..n]), Gather(parts, HandOf));
    assert HandOf(parts[t]) == multiset{};
    assert Listed(f', parts[t := part]) == Listed(f, parts);
    TallySame(Listed(f, parts), parts, t, part);
  }

  /** A waiter in a hand sleeps, so waking it finds its slot Waiting. */
  lemma {:induction false} HandWaits(f: Futex, parts: seq<Part>, t: nat, w: Waiter)
    requires Lawful(f, parts) && t < |parts| && w in parts[t].hand
    ensures w.task < |parts| && w.task != t && parts[w.task].waits == Some(w.queue) && w.queue < |f.queues|
  {
    ListedWaits(f, parts, w);
    assert PartOk(parts[t], |f.queues|);
    assert PartOk(parts[w.task], |f.queues|);
  }

  lemma {:induction false} HandSleeps(f: Futex, parts: seq<Part>, t: nat)
    requires Lawful(f, parts) && t < |parts| && parts[t].hand != []
    ensures var w := parts[t].hand[0];
            w.task < |parts| && w.task != t && parts[w.task].waits == Some(w.queue)
  {
    HandWaits(f, parts, t, parts[t].hand[0]);
  }

  /** With one queue, taking the inbox appends it as it is. */
  lemma {:induction false} SingleQueue(f: Futex, parts: seq<Part>)
    requires Lawful(f, parts) && |f.queues| == 1
    ensures OnQueue(f.inbox, 0) == f.inbox && Enqueue(f).queues == [f.queues[0] + f.inbox]
  {
    InboxFits(f, parts);
    OnQueueAll(f.inbox, 0);
  }

  /** Waking the first waiter of the hand. */
  lemma {:induction false} WakeLaw(f: Futex, parts: seq<Part>, t: nat, part: Part, awake: Part)
    requires Lawful(f, parts) && t < |parts| && parts[t].hand != []
    requires part == parts[t].(hand := parts[t].hand[1..])
    requires var k := parts[t].hand[0].task;
             k < |parts| && k != t && awake == parts[k].(waits := None)
    ensures Lawful(f, parts[t := part][parts[t].hand[0].task := awake])
  {
    hide Tally, Locked, Away, PartsOk, Tagged;
    PartAt(parts, t, |f.queues|);
    AwayFollows(f, f, parts, t, part);
    PartsFollow(parts, t, part, |f.queues|);
    PartAt(parts[t := part], parts[t].hand[0].task, |f.queues|);
    AwayFollows(f, f, parts[t := part], parts[t].hand[0].task, awake);
    PartsFollow(parts[t := part], parts[t].hand[0].task, awake, |f.queues|);
    HandSleeps(f, parts, t);
    var w := parts[t].hand[0];
    var mid := parts[t := part];
    LockedFollows(f, f, parts, t, part);
    LockedFollows(f, f, mid, w.task, awake);
    GatherUpdate(parts, HandOf, t, part);
    GatherUpdate(mid, HandOf, w.task, awake);
    HandLoses(Lists(f), Gather(parts, HandOf), parts[t].hand);
    assert Listed(f, mid[w.task := awake]) == Listed(f, parts) - multiset{w};
    TallySame(Listed(f, parts), parts, t, part);
    TallyStop(Listed(f, parts), mid, w.task, awake);
  }

  /** A cancelled wait: the inbox is out of the way, the waiter is unlinked and the
    exclusive guard released. Everybody else stays listed. */
  lemma {:induction false} UnlinkLaw(f: Futex, f': Futex, parts: seq<Part>, t: nat, q: nat, part: Part)
    requires Lawful(f, parts) && t < |parts| && q < |f.queues|
    requires parts[t].exclusive == 1 && (parts[t].away || f.inbox == [])
    requires parts[t].waits == None || parts[t].waits == Some(q)
    requires f' == Include(Unlink(f, Waiter(t, q)))
    requires part == parts[t].(waits := None, exclusive := 0, away := false)
    ensures Lawful(f', parts[t := part])
    ensures parts[t].waits == None ==> f'.queues == f.queues
  {
    hide Tally, Locked, Away, PartsOk, Tagged;
    PartAt(parts, t, |f.queues|);
    PartsFollow(parts, t, part, |f.queues|);
    AwayFollows(f, f', parts, t, part);
    var w := Waiter(t, q);
    ExclusiveAlone(f, parts, t);
    UnlinkLocked(f, f', parts, t, part);
    UnlinkTagged(f, w);
    SameTagged(Unlink(f, w), f');
    GatherUpdate(parts, HandOf, t, part);
    if parts[t].waits == None {
      NotWaitingNotListed(f, parts, t, q);
      UnlinkAbsent(f, w);
      assert Listed(f', parts[t := part]) == Listed(f, parts);
      TallySame(Listed(f, parts), parts, t, part);
    } else {
      SleeperFound(f, parts, t);
      NotInInbox(f, parts, t, q);
      UnlinkLists(f, w);
      assert Listed(f', parts[t := part]) == Listed(f, parts) - multiset{w};
      TallyStop(Listed(f, parts), parts, t, part);
    }
  }

  /** Unlinking takes a waiter out of the waiting order and leaves all others as they are. */
  lemma {:induction false} UnlinkOrder(f: Futex, g: Futex, parts: seq<Part>, t: nat)
    requires Lawful(f, parts) && |f.queues| == 1 && t < |parts|
    requires g == Enqueue(f) || (g == f && parts[t].away)
    ensures var f' := Include(Unlink(g, Waiter(t, 0)));
            Front(f') + f'.inbox == Without(Front(f) + f.inbox, Waiter(t, 0))
  {
    var w := Waiter(t, 0);
    SingleQueue(f, parts);
    if g == f {
      NotInInbox(f, parts, t, 0);
    }
    assert Front(g) + g.inbox == Front(f) + f.inbox;
    WithoutFront(Front(g), g.inbox, w);
  }

  lemma {:induction false} NotWaitingNotListed(f: Futex, parts: seq<Part>, t: nat, q: nat)
    requires Tally(Listed(f, parts), parts) && t < |parts| && q < |f.queues| && parts[t].waits == None
    ensures Waiter(t, q) !in f.queues[q]
  {
    if Waiter(t, q) in f.queues[q] {
      ListedWaits(f, parts, Waiter(t, q));
    }
  }

  lemma {:induction false} UnlinkLocked(f: Futex, f': Futex, parts: seq<Part>, t: nat, part: Part)
    requires Locked(f, parts) && t < |parts| && parts[t].exclusive == 1
    requires f'.guards == f.guards && f'.borrowed == f.borrowed && !f'.exclusive
    requires part.exclusive == 0 && part.guard == parts[t].guard && part.borrow == parts[t].borrow
    ensures Locked(f', parts[t := part])
  {
    SumAt(parts, ExclusiveOf, t);
    LockedFollows(f, f', parts, t, part);
  }

  lemma {:induction false} UnlinkTagged(f: Futex, w: Waiter)
    requires Tagged(f)
    ensures Tagged(Unlink(f, w))
  {
    if w.queue < |f.queues| {
      WithoutMultiset(f.queues[w.queue], w);
      forall v | v in Unlink(f, w).queues[w.queue]
        ensures v.queue == w.queue
      {
        assert v in multiset(Without(f.queues[w.queue], w));
        assert v in f.queues[w.queue];
      }
    }
  }

  /** With every task outside and every list empty the law holds. */
  lemma {:induction false} NewLaw(queues: nat, parts: seq<Part>)
    requires forall i :: 0 <= i < |parts| ==> parts[i] == OUTSIDE
    ensures Lawful(New(queues), parts)
  {
    var f := New(queues);
    SumZero(parts, GuardOf);
    SumZero(parts, BorrowOf);
    SumZero(parts, ExclusiveOf);
    GatherEmpty(parts, HandOf);
    GatherEmpty(f.queues, AsMultiset);
    assert Listed(f, parts) == multiset{};
  }
}
