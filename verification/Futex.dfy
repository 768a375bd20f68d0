/** What the clients see of a futex: an atomic word swapped together with the top of
  a lock-free inbox, an array of first-in first-out queues the inbox is distributed
  to, the guard that cancellation takes exclusively, and the queue borrow.

  The operations are the ones clients use, as functions on sequences; WaiterList
  shows that the linked structures of the futex compute them.
 */
module Futex {
  import opened Counting
  import opened Options
  import opened Sequences

  /** A parked waiter: the task that waits and the queue it asked for. */
  datatype Waiter = Waiter(task: nat, queue: nat)

  /** A snapshot of the double-wide atomic: the word and the inbox pointer. The
    pointer names only the newest waiter; what lies below it is not compared. */
  datatype Snap<W> = Snap(word: W, inbox: Option<Waiter>)

  /** The inbox is listed oldest first, so the pointer is to its last element. */
  datatype Futex = Futex(
    inbox: seq<Waiter>,
    queues: seq<seq<Waiter>>,
    guards: nat,
    exclusive: bool,
    borrowed: bool)

  function New(queues: nat): Futex
  {
    Futex([], seq(queues, _ => []), 0, false, false)
  }

  function Top(f: Futex): Option<Waiter>
  {
    if f.inbox == [] then None else Some(f.inbox[|f.inbox| - 1])
  }

  /** A successful wait: the waiter becomes the top of the inbox. */
  function Push(f: Futex, w: Waiter): Futex
  {
    f.(inbox := f.inbox + [w])
  }

  /** The first queue; most futexes have no other. */
  function Front(f: Futex): seq<Waiter>
  {
    if |f.queues| > 0 then f.queues[0] else []
  }

  /** The waiters of a stack that asked for queue q, oldest first. */
  function OnQueue(ws: seq<Waiter>, q: nat): seq<Waiter>
  {
    if ws == [] then []
    else (if ws[0].queue == q then [ws[0]] else []) + OnQueue(ws[1..], q)
  }

  /** Taking the inbox: every queue is followed by the waiters that asked for it. */
  function Enqueue(f: Futex): Futex
  {
    f.(inbox := [], queues := seq(|f.queues|, q requires 0 <= q < |f.queues| => f.queues[q] + OnQueue(f.inbox, q)))
  }

  /** Popping the first n waiters of a queue. */
  function Pop(f: Futex, q: nat, n: nat): Futex
    requires q < |f.queues| && n <= |f.queues[q]|
  {
    f.(queues := f.queues[q := f.queues[q][n..]])
  }

  /** Unlinking a waiter from the queue it asked for. */
  function Unlink(f: Futex, w: Waiter): Futex
  {
    if w.queue < |f.queues| then f.(queues := f.queues[w.queue := Without(f.queues[w.queue], w)]) else f
  }

  // ----- guards and borrow -----

  function Share(f: Futex): Futex { f.(guards := f.guards + 1) }

  function Unshare(f: Futex): Futex { if f.guards == 0 then f else f.(guards := f.guards - 1) }

  function Exclude(f: Futex): Futex { f.(exclusive := true) }

  function Include(f: Futex): Futex { f.(exclusive := false) }

  function TakeBorrow(f: Futex): Futex { f.(borrowed := true) }

  function DropBorrow(f: Futex): Futex { f.(borrowed := false) }

  // ----- sequence laws -----

  /** The same distribution one waiter at a time, as the futex performs it. */
  function Distribute(queues: seq<seq<Waiter>>, ws: seq<Waiter>): seq<seq<Waiter>>
    requires forall w :: w in ws ==> w.queue < |queues|
    decreases |ws|
  {
    if ws == [] then queues
    else Distribute(queues[ws[0].queue := queues[ws[0].queue] + [ws[0]]], ws[1..])
  }

  lemma {:induction false} DistributeIsEnqueue(f: Futex, ws: seq<Waiter>)
    requires forall w :: w in ws ==> w.queue < |f.queues|
    ensures Enqueue(f.(inbox := ws)).queues == Distribute(f.queues, ws)
    decreases |ws|
  {
    if ws != [] {
      var q := ws[0].queue;
      var g := f.(queues := f.queues[q := f.queues[q] + [ws[0]]]);
      DistributeIsEnqueue(g, ws[1..]);
      var now, later := Enqueue(f.(inbox := ws)).queues, Enqueue(g.(inbox := ws[1..])).queues;
      forall k | 0 <= k < |f.queues|
        ensures now[k] == later[k]
      {
        assert now[k] == f.queues[k] + OnQueue(ws, k);
        assert later[k] == g.queues[k] + OnQueue(ws[1..], k);
      }
      assert now == later;
    } else {
      var now := Enqueue(f.(inbox := ws)).queues;
      forall k | 0 <= k < |f.queues|
        ensures now[k] == f.queues[k]
      {
        assert now[k] == f.queues[k] + OnQueue(ws, k);
      }
      assert now == f.queues;
    }
  }

  lemma {:induction false} OnQueueAppend(a: seq<Waiter>, b: seq<Waiter>, q: nat)
    ensures OnQueue(a + b, q) == OnQueue(a, q) + OnQueue(b, q)
  {
    if a == [] {
      assert a + b == b;
    } else {
      OnQueueAppend(a[1..], b, q);
      assert (a + b)[1..] == a[1..] + b;
      var first := if a[0].queue == q then [a[0]] else [];
      assert first + (OnQueue(a[1..], q) + OnQueue(b, q)) == (first + OnQueue(a[1..], q)) + OnQueue(b, q);
    }
  }

  lemma {:induction false} OnQueueMember(ws: seq<Waiter>, q: nat, w: Waiter)
    ensures w in OnQueue(ws, q) <==> w in ws && w.queue == q
  {
    if ws != [] {
      OnQueueMember(ws[1..], q, w);
    }
  }

  /** With one queue only, distribution keeps the stack as it is. */
  lemma {:induction false} OnQueueAll(ws: seq<Waiter>, q: nat)
    requires forall w :: w in ws ==> w.queue == q
    ensures OnQueue(ws, q) == ws
  {
    if ws != [] {
      OnQueueAll(ws[1..], q);
    }
  }

  // ----- the waiters of a futex -----

  function AsMultiset(q: seq<Waiter>): multiset<Waiter>
  {
    multiset(q)
  }

  /** Every waiter in the inbox or in a queue, with multiplicity. */
  function Lists(f: Futex): multiset<Waiter>
  {
    multiset(f.inbox) + Gather(f.queues, AsMultiset)
  }

  /** Appending one waiter to one queue adds it to the whole. */
  lemma {:induction false} AppendLists(queues: seq<seq<Waiter>>, q: nat, w: Waiter)
    requires q < |queues|
    ensures Gather(queues[q := queues[q] + [w]], AsMultiset) == Gather(queues, AsMultiset) + multiset{w}
  {
    GatherUpdate(queues, AsMultiset, q, queues[q] + [w]);
    assert AsMultiset(queues[q] + [w]) == AsMultiset(queues[q]) + multiset{w};
    AddOne(Gather(queues, AsMultiset), AsMultiset(queues[q]), w);
  }

  lemma {:induction false} DistributeLists(queues: seq<seq<Waiter>>, ws: seq<Waiter>)
    requires forall w :: w in ws ==> w.queue < |queues|
    ensures Gather(Distribute(queues, ws), AsMultiset) == Gather(queues, AsMultiset) + multiset(ws)
    decreases |ws|
  {
    if ws != [] {
      var q := ws[0].queue;
      AppendLists(queues, q, ws[0]);
      DistributeLists(queues[q := queues[q] + [ws[0]]], ws[1..]);
      HeadAndRest(Gather(queues, AsMultiset), ws);
    }
  }

  lemma {:induction false} PushLists(f: Futex, w: Waiter)
    ensures Lists(Push(f, w)) == Lists(f) + multiset{w}
  {
  }

  lemma {:induction false} EnqueueLists(f: Futex)
    requires forall w :: w in f.inbox ==> w.queue < |f.queues|
    ensures Lists(Enqueue(f)) == Lists(f)
  {
    DistributeIsEnqueue(f, f.inbox);
    DistributeLists(f.queues, f.inbox);
    assert f.(inbox := f.inbox) == f;
  }

  /** A queue that loses some waiters takes them out of the whole. */
  lemma {:induction false} ShrinkLists(queues: seq<seq<Waiter>>, q: nat, rest: seq<Waiter>, taken: multiset<Waiter>)
    requires q < |queues| && multiset(queues[q]) == taken + multiset(rest)
    ensures Gather(queues[q := rest], AsMultiset) + taken == Gather(queues, AsMultiset)
  {
    GatherUpdate(queues, AsMultiset, q, rest);
    Trade(multiset{}, Gather(queues, AsMultiset), AsMultiset(queues[q]), AsMultiset(rest), taken);
  }

  lemma {:induction false} PopLists(f: Futex, q: nat, n: nat)
    requires q < |f.queues| && n <= |f.queues[q]|
    ensures Lists(Pop(f, q, n)) + multiset(f.queues[q][..n]) == Lists(f)
  {
    var ws := f.queues[q];
    assert ws == ws[..n] + ws[n..];
    ShrinkLists(f.queues, q, ws[n..], multiset(ws[..n]));
  }

  /** Unlinking removes the waiter from its queue. */
  lemma {:induction false} UnlinkLists(f: Futex, w: Waiter)
    requires w.queue < |f.queues| && w in f.queues[w.queue]
    ensures Lists(Unlink(f, w)) + multiset{w} == Lists(f)
  {
    var ws := f.queues[w.queue];
    WithoutMultiset(ws, w);
    TakeOne(multiset(ws), w);
    ShrinkLists(f.queues, w.queue, Without(ws, w), multiset{w});
    Assoc(multiset(f.inbox), Gather(Unlink(f, w).queues, AsMultiset), multiset{w});
  }

  /** Unlinking a waiter that was popped before changes nothing. */
  lemma {:induction false} UnlinkAbsent(f: Futex, w: Waiter)
    requires w.queue < |f.queues| ==> w !in f.queues[w.queue]
    ensures Unlink(f, w) == f
  {
    if w.queue < |f.queues| {
      WithoutMultiset(f.queues[w.queue], w);
      assert f.queues[w.queue := f.queues[w.queue]] == f.queues;
    }
  }

}
