/** The futex itself: the word swapped together with the inbox pointer, and the queues
  the inbox is distributed to. Every operation on the linked structures computes the
  function of the same meaning in the module Futex, which is what the protocol models
  of the locks and of the channel use.

  A weak compare-and-swap may fail for no reason; spurious says whether it does.
 */
module RawFutexes {
  import F = Futex
  import opened Options
  import opened WaiterLists
  import opened Sequences

  /** What a load of the atomic returns. */
  datatype Atom = Atom(word: nat, inbox: Waiter?)

  class RawFutex {
    var word: nat
    var inbox: Waiter?
    const queues: seq<WaiterList>
    /** The number of this futex, stored as owner in its waiters. */
    const id: nat
    ghost var stack: seq<Waiter>
    ghost var repr: set<Waiter>

    constructor (word: nat, queues: seq<WaiterList>, id: nat)
      requires forall q :: 0 <= q < |queues| ==> queues[q].Valid() && queues[q].nodes == []
      requires forall p, q :: 0 <= p < q < |queues| ==> queues[p] != queues[q]
      ensures Valid() && this.word == word && this.queues == queues && this.id == id
      ensures View() == F.New(|queues|)
    {
      this.word, this.queues, this.id := word, queues, id;
      inbox, stack, repr := null, [], {};
      new;
      assert Values(Contents()) == F.New(|queues|).queues;
    }

    ghost function Contents(): (r: seq<seq<Waiter>>)
      reads queues
      ensures |r| == |queues| && forall q :: 0 <= q < |r| ==> r[q] == queues[q].nodes
    {
      seq(|queues|, q requires 0 <= q < |queues| reads queues => queues[q].nodes)
    }

    ghost predicate QueueOk(q: nat)
      requires q < |queues|
      reads this`repr, repr, queues
    {
      && (forall w :: w in queues[q].nodes ==> w in repr && w.queue == q)
      && queues[q].Valid()
    }

    ghost predicate QueuesValid()
      reads this`repr, repr, queues
    {
      && (forall q :: 0 <= q < |queues| ==> QueueOk(q))
      && (forall p, q :: 0 <= p < q < |queues| ==> queues[p] != queues[q])
      && Pairwise(Contents())
    }

    ghost predicate Valid()
      reads this`repr, this`stack, this`inbox, repr, queues
    {
      && QueuesValid()
      && (forall w :: w in stack ==> w in repr)
      && Stacked(stack) && inbox == Nth(stack, |stack| - 1) && Outside(Contents(), stack)
    }

    ghost function View(): F.Futex
      reads this`stack, queues
    {
      Model(stack, Contents())
    }

    /** Moves the first waiter of a list to the queue it asked for. */
    method DealOne(list: WaiterList)
      requires QueuesValid() && list.Valid() && list.nodes != [] && Outside(Contents(), list.nodes) && list !in queues
      requires forall w :: w in list.nodes ==> w in repr
      modifies list, queues, repr`next, repr`prev
      ensures QueuesValid() && list.Valid() && list.nodes == old(list.nodes)[1..] && Outside(Contents(), list.nodes)
      ensures Contents() == Deal(old(Contents()), old(list.nodes)[0])
    {
      hide Distinct, Apart, Pairwise, Outside;
      ghost var ws, was := list.nodes, Contents();
      OutsideAt(was, ws);
      DealtOutside(was, ws);
      var w := TakeFirst(list);
      label Popped:
      assert w in ws && QueueOk(w.queue);
      forall p, v | 0 <= p < |queues| && p != w.queue && v in was[p]
        ensures v !in was[w.queue] && v != w
      {
      }
      AppendTo(w);
      assert Contents() == Deal(was, w);
      forall v | v in list.nodes
        ensures v.next == old@Popped(v.next) && v.prev == old@Popped(v.prev)
      {
        assert v in ws && v !in was[w.queue];
      }
      Kept@Popped(list);
    }

    /** Pops from a list outside the futex; the queues keep all their links. */
    method TakeFirst(list: WaiterList) returns (w: Waiter)
      requires QueuesValid() && list.Valid() && list.nodes != [] && list !in queues
      requires forall q, v :: 0 <= q < |queues| && v in Contents()[q] ==> v !in list.nodes
      modifies list, list.nodes`next, list.nodes`prev
      ensures QueuesValid() && Contents() == old(Contents()) && list.Valid() && w.next == null && w.prev == null
      ensures old(list.nodes) != [] && w == old(list.nodes)[0] && list.nodes == old(list.nodes)[1..]
    {
      hide Distinct, Apart, Pairwise;
      ghost var ws, was := list.nodes, Contents();
      w := list.PopFront();
      forall q | 0 <= q < |queues|
        ensures QueueOk(q) && queues[q].nodes == was[q]
      {
        assert old(QueueOk(q));
        forall v | v in queues[q].nodes
          ensures v.next == old(v.next) && v.prev == old(v.prev)
        {
          assert v in was[q] && v !in ws;
        }
        Kept(queues[q]);
      }
      assert Contents() == was;
    }

    /** Appends a waiter without links to the queue it asked for. */
    method AppendTo(w: Waiter)
      requires QueuesValid() && w in repr && w.next == null && w.prev == null && w.queue < |queues|
      requires Apart(Contents()[w.queue], [w]) && Pairwise(Deal(Contents(), w))
      requires forall p, v :: 0 <= p < |queues| && p != w.queue && v in Contents()[p] ==>
          v !in Contents()[w.queue] && v != w
      modifies queues[w.queue], queues[w.queue].nodes`next, w`prev
      ensures QueuesValid() && Contents() == Deal(old(Contents()), w)
    {
      hide Distinct, Apart, Pairwise;
      ghost var was := Contents();
      var k := w.queue;
      assert QueueOk(k);
      queues[k].PushBack(w);
      forall q | 0 <= q < |queues|
        ensures QueueOk(q) && queues[q].nodes == Deal(was, w)[q]
      {
        assert old(QueueOk(q));
        if q != k {
          assert was[q] == queues[q].nodes;
          Kept(queues[q]);
        }
      }
      assert Contents() == Deal(was, w);
    }

    /** Distributes a stack to the queues, oldest waiter first. */
    method Enqueue(top: Waiter?, ghost ws: seq<Waiter>)
      requires QueuesValid() && Stacked(ws) && top == Nth(ws, |ws| - 1) && Outside(Contents(), ws)
      requires forall w :: w in ws ==> w in repr
      modifies queues, repr`next, repr`prev
      ensures QueuesValid() && Contents() == DealAll(old(Contents()), ws)
    {
      hide Distinct, Apart, Pairwise, Outside, Deal;
      OutsideAll(Contents(), ws);
      var list := new WaiterList.FromStack(top, ws);
      ghost var was := Contents();
      forall q | 0 <= q < |queues|
        ensures QueueOk(q)
      {
        assert old(QueueOk(q));
        forall v | v in queues[q].nodes
          ensures v.next == old(v.next) && v.prev == old(v.prev)
        {
          assert v in was[q] && v !in ws;
        }
        Kept(queues[q]);
      }
      while !list.IsEmpty()
        invariant QueuesValid() && list.Valid() && Outside(Contents(), list.nodes) && fresh(list) && list !in queues
        invariant forall w :: w in list.nodes ==> w in repr
        invariant DealAll(Contents(), list.nodes) == DealAll(was, ws)
        decreases |list.nodes|
      {
        DealOne(list);
      }
    }

    /** The word is swapped and the inbox kept. */
    method CmpxchgWeak(current: Atom, new_: nat, spurious: bool) returns (ok: bool, seen: Atom)
      requires Valid()
      modifies this`word
      ensures Valid() && View() == old(View())
      ensures seen == Atom(old(word), old(inbox)) && ok == (!spurious && current == seen)
      ensures word == if ok then new_ else old(word)
    {
      seen := Atom(word, inbox);
      ok := !spurious && current == seen;
      if ok {
        word := new_;
      }
    }

    /** The word is swapped and the inbox distributed to the queues. */
    method CmpxchgEnqueueWeak(current: Atom, new_: nat, spurious: bool) returns (ok: bool, seen: Atom)
      requires Valid()
      modifies this`word, this`inbox, this`stack, queues, repr`next, repr`prev
      ensures Valid()
      ensures seen == Atom(old(word), old(inbox)) && ok == (!spurious && current == seen)
      ensures word == if ok then new_ else old(word)
      ensures View() == if ok then F.Enqueue(old(View())) else old(View())
      ensures if ok then stack == [] && Contents() == DealAll(old(Contents()), old(stack))
              else unchanged(this) && unchanged(queues) && unchanged(repr)
    {
      seen := Atom(word, inbox);
      ok := !spurious && current == seen;
      if ok {
        ghost var ws, was := stack, Contents();
        word, inbox, stack := new_, null, [];
        Enqueue(current.inbox, ws);
        DealtView(was, ws);
        OutsideNobody(Contents());
      }
    }

    /** One queue loses waiters; everything else keeps its links. */
    twostate lemma QueueShrinks(q: nat)
      requires old(Valid()) && q < |queues| && unchanged(this)
      requires queues[q].Valid() && forall w :: w in queues[q].nodes ==> w in old(queues[q].nodes)
      requires forall p :: 0 <= p < |queues| && p != q ==> unchanged(queues[p])
      requires forall w :: w in repr && w !in old(queues[q].nodes) ==> w.next == old(w.next) && w.prev == old(w.prev)
      ensures Valid()
    {
      hide Distinct, Apart, Pairwise, Outside;
      var was, now := old(Contents()), Contents();
      assert old(QueueOk(q));
      forall p | 0 <= p < |queues|
        ensures QueueOk(p)
      {
        if p != q {
          assert old(QueueOk(p));
          PairApart(was, p, q);
          forall v | v in queues[p].nodes
            ensures v.next == old(v.next) && v.prev == old(v.prev)
          {
            assert v in was[p] && v !in was[q];
          }
          Kept(queues[p]);
        }
      }
      OutsideAll(was, stack);
      forall v | v in stack
        ensures v.next == old(v.next) && v.prev == old(v.prev)
      {
        assert v !in was[q];
      }
      FewerApart(was, now, q, stack);
    }

    /** Waiters that are in no list of the futex any more are not its concern. */
    ghost method Forget(gone: set<Waiter?>)
      requires Valid() && forall w :: w in stack ==> w !in gone
      requires forall q, w :: 0 <= q < |queues| && w in queues[q].nodes ==> w !in gone
      modifies this`repr
      ensures Valid() && repr == old(repr) - gone
    {
      repr := repr - gone;
      ReprShrinks(gone);
    }

    /** The first waiter of a queue, if any. */
    method Pop(q: nat) returns (w: Waiter?)
      requires Valid() && q < |queues|
      modifies this`repr, queues[q], repr`next, repr`prev
      ensures Valid() && w == Nth(old(queues[q].nodes), 0)
      ensures View() == if w == null then old(View()) else F.Pop(old(View()), q, 1)
      ensures w != null ==> w.next == null && w.prev == null && w !in repr
      ensures repr == old(repr) - {w}
      ensures Contents() == if w == null then old(Contents()) else old(Contents())[q := old(Contents())[q][1..]]
    {
      hide Distinct, Apart, Pairwise, Outside, Stacked;
      ghost var was := Contents();
      assert QueueOk(q);
      w := queues[q].PopFront();
      QueueShrinks(q);
      ghost var now := Contents();
      if w != null {
        assert now == was[q := was[q][1..]];
        PoppedView(stack, was, q, 1);
        FirstGone(was, stack, q, w);
        Forget({w});
      } else {
        assert now == was;
      }
    }

    /** The first count waiters of a queue, or all of them. */
    method PopMany(count: nat, q: nat) returns (list: WaiterList)
      requires Valid() && q < |queues| && count <= ALL
      modifies this`repr, queues[q], repr`next, repr`prev
      ensures Valid() && list.Valid() && fresh(list)
      ensures repr == old(repr) - set w | w in list.nodes
      ensures var n := Share(count, |old(queues[q].nodes)|);
              list.nodes == old(queues[q].nodes)[..n] && View() == F.Pop(old(View()), q, n)
    {
      hide Distinct, Apart, Pairwise, Outside, Stacked, F.Pop, Share;
      ghost var was := Contents();
      ghost var n := Share(count, |was[q]|);
      assert QueueOk(q);
      PoppedView(stack, was, q, n);
      PoppedGone(was, stack, q, n);
      list := SplitQueue(count, q);
      Forget(set w | w in list.nodes);
    }

    /** The waiters are split off, and still count as the futex's. */
    method SplitQueue(count: nat, q: nat) returns (list: WaiterList)
      requires Valid() && q < |queues| && count <= ALL
      modifies queues[q], repr`next, repr`prev
      ensures Valid() && list.Valid() && fresh(list)
      ensures var n := Share(count, |old(queues[q].nodes)|);
              list.nodes == old(queues[q].nodes)[..n] && Contents() == old(Contents())[q := old(Contents())[q][n..]]
    {
      hide Distinct, Apart, Pairwise, Outside, Stacked;
      assert QueueOk(q);
      list := queues[q].PopFrontMany(count);
      QueueShrinks(q);
    }

    /** The waiters have no links, are in no list of the futex and may come to wait here. */
    ghost predicate Expected(guests: seq<Waiter>)
      reads this`repr, this`stack, queues, guests`next
    {
      && Distinct(guests) && Outside(Contents(), guests) && Apart(stack, guests)
      && forall g :: g in guests ==> g.next == null && g !in repr
    }

    /** Another task's wait takes effect. */
    method Arrive(ghost guests: seq<Waiter>, ghost n: nat, g: Waiter)
      requires Valid() && n < |guests| && g == guests[n] && Expected(guests[n..])
      modifies this`word, this`inbox, this`stack, this`repr, g`prev
      ensures Valid() && Expected(guests[n + 1..]) && inbox == g && guests[..n] + [g] == guests[..n + 1]
      ensures stack == old(stack) + [g] && repr == old(repr) + {g}
    {
      hide Distinct, Apart, Pairwise, Outside, Stacked;
      GuestApart(Contents(), stack, guests[n..]);
      var new_: nat := *;
      var ok, seen := CmpxchgWaitWeak(g, Atom(word, inbox), new_, false);
      GuestsApart(Contents(), old(stack), guests[n..]);
      assert guests[n..][1..] == guests[n + 1..];
    }

    /** Brings the inbox into the queues. Between its load and its swap guests may arrive,
      so that the swap fails, and it may fail for no reason; n guests come in time. */
    method Flip(guests: seq<Waiter>) returns (n: nat)
      requires Valid() && Expected(guests)
      modifies this`word, this`inbox, this`stack, this`repr, queues, repr`next, repr`prev, guests`next, guests`prev
      ensures Valid() && stack == [] && n <= |guests| && (n == 0 ==> word == old(word))
      ensures View() == F.Enqueue(old(View()).(inbox := old(View()).inbox + Names(guests[..n])))
      ensures Contents() == DealAll(old(Contents()), old(stack) + guests[..n])
      ensures repr == old(repr) + set g | g in guests[..n]
    {
      hide Distinct, Apart, Pairwise, Outside, Stacked, DealAll, F.Enqueue, Expected;
      n := 0;
      var atom := Atom(word, inbox);
      var failures: nat := *;
      assert guests[0..] == guests;
      while atom.inbox != null
        invariant Valid() && atom == Atom(word, inbox) && n <= |guests| && Expected(guests[n..])
        invariant stack == old(stack) + guests[..n] && repr == old(repr) + set g | g in guests[..n]
        invariant unchanged(queues) && (n == 0 ==> word == old(word))
        decreases |guests| - n + failures
      {
        var arrives: bool := *;
        if arrives && n < |guests| {
          Arrive(guests, n, guests[n]);
          n := n + 1;
          atom := Atom(word, inbox);
        } else {
          var spurious := failures > 0;
          var ok, seen := CmpxchgEnqueueWeak(atom, atom.word, spurious);
          if ok {
            FlippedView(old(stack), old(Contents()), guests[..n]);
            return;
          }
          atom := seen;
          failures := failures - 1;
        }
      }
      FlippedNobody(old(stack), old(Contents()), guests[..n]);
    }

    /** Unlinks a waiter from the queue it asked for, if it has not been popped before; a
      popped waiter has no links. */
    method Cancel(w: Waiter)
      requires Valid() && w.queue < |queues|
      requires w in queues[w.queue].nodes || (w.next == null && w.prev == null && w !in repr &&
          Apart(queues[w.queue].nodes, [w]))
      modifies this`repr, queues[w.queue], repr`next, repr`prev
      ensures Valid() && View() == F.Unlink(old(View()), Name(w)) && w !in queues[w.queue].nodes
    {
      ghost var q, was := w.queue, Contents();
      assert QueueOk(q);
      queues[w.queue].Remove(w);
      WithoutFewer(was[q], w);
      QueueShrinks(q);
      assert Contents() == was[q := Without(was[q], w)];
      UnlinkedView(stack, was, w);
      WithoutGone(was[q], w);
    }

    /** The waiter is in the inbox or in the queue it asked for. */
    ghost predicate Lists(w: Waiter)
      requires w.queue < |queues|
      reads this`stack, queues
    {
      w in stack || w in queues[w.queue].nodes
    }

    /** The waiter has been popped: it has no links and is in no list. */
    ghost predicate Detached(w: Waiter)
      requires w.queue < |queues|
      reads this`repr, this`stack, queues, w
    {
      w.next == null && w.prev == null && w !in repr && Apart(stack, [w]) && Apart(queues[w.queue].nodes, [w])
    }

    /** Dropping a wait under the exclusive guard: flip, then cancel. The guard does not
      keep guests from arriving. */
    method FlipAndCancel(w: Waiter, guests: seq<Waiter>) returns (n: nat)
      requires Valid() && w.queue < |queues| && Expected(guests) && Apart(guests, [w])
      requires Lists(w) || Detached(w)
      modifies this`word, this`inbox, this`stack, this`repr, queues, repr`next, repr`prev, guests`next, guests`prev
      ensures Valid() && n <= |guests| && stack == [] && w !in queues[w.queue].nodes && (n == 0 ==> word == old(word))
      ensures View() == F.Unlink(F.Enqueue(old(View()).(inbox := old(View()).inbox + Names(guests[..n]))), Name(w))
    {
      hide Distinct, Apart, Pairwise, Outside, Stacked, F.Enqueue, F.Unlink, DealAll;
      ApartObjects(guests, [w]);
      assert w in [w] && w !in guests;
      n := Flip(guests);
      ApartPrefix(old(stack), guests, n, w);
      CancelFinds(old(Contents()), old(stack) + guests[..n], w);
      Cancel(w);
    }

    lemma {:induction false} NobodyExpected()
      ensures Expected([])
    {
    }

    /** Taking the inbox moves w to its queue, if it is listed, and does not disturb guests. */
    method FlipAll(w: Waiter, ghost guests: seq<Waiter>)
      requires Valid() && w.queue < |queues| && (Lists(w) || Detached(w)) && Expected(guests)
      modifies this`word, this`inbox, this`stack, this`repr, queues, repr`next, repr`prev
      ensures Valid() && Expected(guests) && repr == old(repr) && stack == []
      ensures old(Lists(w)) ==> w in queues[w.queue].nodes
      ensures old(Detached(w)) ==> Detached(w)
    {
      hide Distinct, Apart, Pairwise, Stacked, DealAll, F.Enqueue, Outside;
      ghost var was, ws := Contents(), stack;
      NobodyExpected();
      var n := Flip([]);
      assert ws + [][..n] == ws;
      CancelFinds(was, ws, w);
      NotIn(ws, w);
      NotIn(was[w.queue], w);
      DealtGuests(was, ws, guests);
      assert Contents()[w.queue] == queues[w.queue].nodes;
      NobodyApart(w);
    }

    lemma {:induction false} NobodyApart(w: Waiter)
      ensures Apart([], [w])
    {
    }

    /** A notifier takes the inbox and pops the first waiter of the queue of w, who may be w
      itself; otherwise w stays where it is, in a list or in none. */
    method NotifyOne(w: Waiter, ghost guests: seq<Waiter>) returns (first: Waiter?)
      requires Valid() && w.queue < |queues| && (Lists(w) || Detached(w)) && Expected(guests)
      modifies this`word, this`inbox, this`stack, this`repr, queues, repr`next, repr`prev
      ensures Valid() && Expected(guests) && repr <= old(repr)
      ensures old(Lists(w)) && first != w ==> Lists(w)
      ensures old(Detached(w)) ==> first != w
      ensures old(Detached(w)) || first == w ==> Detached(w)
    {
      hide Valid, Expected, Detached;
      FlipAll(w, guests);
      first := PopOne(w, guests);
    }

    method PopOne(w: Waiter, ghost guests: seq<Waiter>) returns (first: Waiter?)
      requires Valid() && w.queue < |queues| && stack == [] && (Lists(w) || Detached(w)) && Expected(guests)
      modifies this`repr, queues, repr`next, repr`prev
      ensures Valid() && Expected(guests) && repr <= old(repr)
      ensures old(Lists(w)) && first != w ==> Lists(w)
      ensures old(Detached(w)) ==> first != w
      ensures old(Detached(w)) || first == w ==> Detached(w)
    {
      hide Distinct, Apart, Pairwise, Stacked, Outside;
      ghost var q, dealt := w.queue, Contents();
      assert QueueOk(q);
      NobodyApart(w);
      first := Pop(w.queue);
      if first != null {
        PoppedGuests(dealt, q, guests);
        PoppedOther(dealt, q, w);
        assert Contents()[q] == queues[q].nodes;
      }
    }

    /** The waiter is in no list and may begin to wait. */
    ghost predicate Welcome(w: Waiter)
      reads this`repr, this`stack, queues, w
    {
      && w.next == null && w !in repr && w.queue < |queues|
      && Apart(stack, [w]) && forall q :: 0 <= q < |queues| ==> Apart(queues[q].nodes, [w])
    }

    /** A wait: the waiter is linked to the inbox it saw and becomes its top. */
    method CmpxchgWaitWeak(w: Waiter, current: Atom, new_: nat, spurious: bool) returns (ok: bool, seen: Atom)
      requires Valid() && Welcome(w)
      modifies this`word, this`inbox, this`stack, this`repr, w`prev
      ensures Valid() && (ok ==> Lists(w)) && (!ok ==> Welcome(w))
      ensures seen == Atom(old(word), old(inbox)) && ok == (!spurious && current == seen)
      ensures word == if ok then new_ else old(word)
      ensures View() == if ok then F.Push(old(View()), Name(w)) else old(View())
      ensures stack == (if ok then old(stack) + [w] else old(stack))
      ensures repr == if ok then old(repr) + {w} else old(repr)
    {
      hide Distinct, Apart, Pairwise, Outside;
      w.prev := current.inbox;
      KeptAll();
      seen := Atom(word, inbox);
      ok := !spurious && current == seen;
      if ok {
        OutsideOne(Contents(), w);
        PushList(w, [w]);
        assert {w} == set v | v in [w];
        word := new_;
      }
    }

    /** Moves a list of waiters to this futex, as if each of them had waited here, in order
      and after the n guests that arrived before the swap succeeded. */
    method Requeue(list: WaiterList, guests: seq<Waiter>) returns (n: nat)
      requires Valid() && list.Valid() && Outside(Contents(), list.nodes) && Apart(stack, list.nodes)
      requires forall w :: w in list.nodes ==> w !in repr
      requires Expected(guests) && Apart(guests, list.nodes)
      modifies this`word, this`inbox, this`stack, this`repr, list.nodes`owner, list.nodes`prev, guests`prev
      ensures Valid() && n <= |guests| && (n == 0 ==> word == old(word))
      ensures View() == old(View()).(inbox := old(View()).inbox + Names(guests[..n]) + Names(list.nodes))
      ensures forall w :: w in list.nodes ==> w.owner == id
    {
      hide Distinct, Apart, Pairwise, Outside;
      n := 0;
      ghost var ws := list.nodes;
      if list.IsEmpty() {
        assert Names(stack) + Names(guests[..0]) + Names(ws) == Names(stack);
        return;
      }
      Others(ws, 0);
      list.SetOwner(id);
      n := Splice(list.head, list.tail, ws, guests);
    }

    /** Links the first waiter of the list to the inbox and makes the last one its top. */
    method Splice(head: Waiter, tail: Waiter, ghost ws: seq<Waiter>, guests: seq<Waiter>) returns (n: nat)
      requires Valid() && Outside(Contents(), ws) && Distinct(ws) && Apart(stack, ws)
               && forall w :: w in ws ==> w !in repr
      requires ws != [] && head == ws[0] && tail == ws[|ws| - 1] && tail.next == null
      requires forall i {:trigger ws[i].prev} :: 0 < i < |ws| ==> ws[i].prev == ws[i - 1]
      requires Expected(guests) && Apart(guests, ws)
      modifies this`word, this`inbox, this`stack, this`repr, head`prev, guests`prev
      ensures Valid() && n <= |guests| && (n == 0 ==> word == old(word))
      ensures View() == old(View()).(inbox := old(View()).inbox + Names(guests[..n]) + Names(ws))
    {
      hide Distinct, Apart, Pairwise, Outside, Stacked;
      Others(ws, 0);
      Relink(head);
      n := AwaitSwap(head, ws, guests);
      MoreApart(old(stack), guests, n, ws);
      PushList(tail, ws);
      RequeuedNames(old(stack), guests[..n], ws);
    }

    method Relink(head: Waiter)
      requires Valid() && head !in repr
      modifies head`prev
      ensures Valid() && head.prev == inbox
    {
      hide Distinct, Apart, Pairwise, Outside, Stacked;
      head.prev := inbox;
      KeptAll();
    }

    /** The attempts that fail: each time the first waiter of the list is linked to what the
      inbox has become. */
    method AwaitSwap(head: Waiter, ghost ws: seq<Waiter>, guests: seq<Waiter>) returns (n: nat)
      requires Valid() && ws != [] && head == ws[0] && head.prev == inbox && forall w :: w in ws ==> w !in repr
      requires Expected(guests) && Apart(guests, ws) && Distinct(ws)
      modifies this`word, this`inbox, this`stack, this`repr, head`prev, guests`prev
      ensures Valid() && n <= |guests| && head.prev == inbox && (n == 0 ==> word == old(word))
      ensures stack == old(stack) + guests[..n] && repr == old(repr) + set g | g in guests[..n]
      ensures forall w :: w in ws && w != head ==> w.prev == old(w.prev)
    {
      hide Distinct, Apart, Pairwise, Outside, Stacked;
      ApartObjects(guests, ws);
      n := 0;
      assert guests[0..] == guests;
      var failures: nat := *;
      while failures > 0
        invariant Valid() && n <= |guests| && Expected(guests[n..]) && head.prev == inbox
        invariant stack == old(stack) + guests[..n] && repr == old(repr) + set g | g in guests[..n]
        invariant (n == 0 ==> word == old(word)) && forall w :: w in ws && w != head ==> w.prev == old(w.prev)
        invariant forall w :: w in ws ==> w !in repr
      {
        var arrives: bool := *;
        if arrives && n < |guests| {
          assert guests[n] in guests && head in ws;
          Arrive(guests, n, guests[n]);
          n := n + 1;
          Relink(head);
        }
        failures := failures - 1;
      }
    }

    /** The swap that succeeds: the last waiter of the list is the new top. */
    method PushList(top: Waiter, ghost ws: seq<Waiter>)
      requires Valid() && Outside(Contents(), ws) && Distinct(ws) && Apart(stack, ws)
      requires ws != [] && top == ws[|ws| - 1] && top.next == null && ws[0].prev == inbox
      requires forall i {:trigger ws[i].prev} :: 0 < i < |ws| ==> ws[i].prev == ws[i - 1]
      modifies this`inbox, this`stack, this`repr
      ensures Valid() && View() == old(View()).(inbox := old(View()).inbox + Names(ws))
      ensures stack == old(stack) + ws && repr == old(repr) + set w | w in ws
    {
      hide Distinct, Apart, Pairwise, Outside;
      StackConcat(stack, ws);
      OutsideConcat(Contents(), stack, ws);
      NamesAppend(stack, ws);
      inbox, stack, repr := top, stack + ws, repr + set w | w in ws;
      ReprGrows(ws);
    }

    twostate lemma ReprGrows(ws: seq<Waiter>)
      requires old(Valid()) && unchanged(queues) && unchanged(old(repr)) && repr == old(repr) + set w | w in ws
      requires stack == old(stack) + ws && inbox == Nth(stack, |stack| - 1)
      requires Stacked(stack) && Outside(Contents(), stack)
      ensures Valid()
    {
      hide Distinct, Apart, Pairwise, Outside, Stacked;
      assert Contents() == old(Contents());
      KeepsQueues();
      forall q | 0 <= q < |queues|
        ensures QueueOk(q)
      {
        assert old(QueueOk(q));
      }
      forall w | w in stack
        ensures w in repr
      {
        assert w in old(stack) || w in ws;
      }
      assert QueuesValid();
    }

    twostate lemma ReprShrinks(gone: set<Waiter?>)
      requires old(Valid()) && unchanged(queues) && unchanged(old(repr)) && repr == old(repr) - gone
      requires stack == old(stack) && inbox == old(inbox)
      requires forall w :: w in stack ==> w !in gone
      requires forall q, w :: 0 <= q < |queues| && w in queues[q].nodes ==> w !in gone
      ensures Valid()
    {
      hide Distinct, Apart, Pairwise, Outside;
      assert Contents() == old(Contents());
      KeepsQueues();
      forall q | 0 <= q < |queues|
        ensures QueueOk(q)
      {
        assert old(QueueOk(q));
      }
      forall i | 0 <= i < |stack|
        ensures stack[i].prev == old(stack[i].prev) && stack[i].next == old(stack[i].next)
      {
        assert stack[i] in old(repr);
      }
      assert QueuesValid() && Stacked(stack);
    }

    /** Queues whose waiters keep their links stay what they are. */
    twostate lemma KeepsQueues()
      requires old(QueuesValid()) && unchanged(queues) && unchanged(old(repr))
      ensures forall q :: 0 <= q < |queues| ==> queues[q].Valid()
    {
      forall q | 0 <= q < |queues|
        ensures queues[q].Valid()
      {
        assert old(QueueOk(q));
        forall w | w in queues[q].nodes
          ensures w.next == old(w.next) && w.prev == old(w.prev)
        {
          assert w in old(repr);
        }
        Kept(queues[q]);
      }
    }

    /** Links outside the futex do not matter to it. */
    twostate lemma KeptAll()
      requires old(Valid()) && unchanged(this) && unchanged(queues) && unchanged(repr)
      ensures Valid()
    {
    }
  }

  // ----- contents of the queues -----

  predicate Pairwise(lists: seq<seq<Waiter>>)
  {
    forall p, q :: 0 <= p < q < |lists| ==> Apart(lists[p], lists[q])
  }

  /** The waiters are in no list and ask for lists that exist. */
  predicate Outside(lists: seq<seq<Waiter>>, ws: seq<Waiter>)
  {
    && (forall i :: 0 <= i < |ws| ==> ws[i].queue < |lists|)
    && (forall q :: 0 <= q < |lists| ==> Apart(lists[q], ws))
  }

  function Deal(lists: seq<seq<Waiter>>, w: Waiter): (r: seq<seq<Waiter>>)
    ensures |r| == |lists|
  {
    if w.queue < |lists| then lists[w.queue := lists[w.queue] + [w]] else lists
  }

  /** Distribution, one waiter after the other. */
  function DealAll(lists: seq<seq<Waiter>>, ws: seq<Waiter>): (r: seq<seq<Waiter>>)
    ensures |r| == |lists|
    decreases |ws|
  {
    if ws == [] then lists else DealAll(Deal(lists, ws[0]), ws[1..])
  }

  function Values(lists: seq<seq<Waiter>>): (r: seq<seq<F.Waiter>>)
    ensures |r| == |lists| && forall q :: 0 <= q < |r| ==> r[q] == Names(lists[q])
  {
    seq(|lists|, q requires 0 <= q < |lists| => Names(lists[q]))
  }

  lemma {:induction false} NamesAppend(a: seq<Waiter>, b: seq<Waiter>)
    ensures Names(a + b) == Names(a) + Names(b)
  {
  }

  /** Dealing linked waiters is dealing their names. */
  lemma {:induction false} DealAllNames(lists: seq<seq<Waiter>>, ws: seq<Waiter>)
    requires forall i :: 0 <= i < |ws| ==> ws[i].queue < |lists|
    ensures forall w :: w in Names(ws) ==> w.queue < |lists|
    ensures Values(DealAll(lists, ws)) == F.Distribute(Values(lists), Names(ws))
    decreases |ws|
  {
    if ws != [] {
      var next, q := Deal(lists, ws[0]), ws[0].queue;
      DealAllNames(next, ws[1..]);
      NamesAppend(lists[q], [ws[0]]);
      assert Names([ws[0]]) == [Name(ws[0])];
      assert Values(next) == Values(lists)[q := Values(lists)[q] + [Name(ws[0])]];
      assert Names(ws)[1..] == Names(ws[1..]);
    }
  }

  /** What a futex with these lists is called in its model. */
  function Model(stack: seq<Waiter>, lists: seq<seq<Waiter>>): F.Futex
  {
    F.Futex(Names(stack), Values(lists), 0, false, false)
  }

  lemma {:induction false} DealtView(lists: seq<seq<Waiter>>, ws: seq<Waiter>)
    requires Outside(lists, ws)
    ensures Model([], DealAll(lists, ws)) == F.Enqueue(Model(ws, lists))
  {
    var f := Model(ws, lists);
    DealAllNames(lists, ws);
    F.DistributeIsEnqueue(f, Names(ws));
    assert f.(inbox := Names(ws)) == f;
  }

  lemma {:induction false} OutsideNobody(lists: seq<seq<Waiter>>)
    ensures Outside(lists, []) && Stacked([])
  {
  }

  lemma {:induction false} OutsideAll(lists: seq<seq<Waiter>>, ws: seq<Waiter>)
    requires Outside(lists, ws)
    ensures forall q, w :: 0 <= q < |lists| && w in lists[q] ==> w !in ws
  {
    forall q | 0 <= q < |lists|
      ensures forall w :: w in lists[q] ==> w !in ws
    {
      ApartObjects(lists[q], ws);
    }
  }

  lemma {:induction false} PairApart(lists: seq<seq<Waiter>>, p: nat, q: nat)
    requires Pairwise(lists) && p < |lists| && q < |lists| && p != q
    ensures forall w :: w in lists[p] ==> w !in lists[q]
  {
    if p < q {
      ApartObjects(lists[p], lists[q]);
    } else {
      ApartObjects(lists[q], lists[p]);
    }
  }

  lemma {:induction false} FewerAreApart(few: seq<Waiter>, many: seq<Waiter>, other: seq<Waiter>)
    requires forall w :: w in few ==> w in many
    ensures Apart(many, other) ==> Apart(few, other)
    ensures Apart(other, many) ==> Apart(other, few)
  {
    forall i | 0 <= i < |few|
      ensures exists j :: 0 <= j < |many| && many[j] == few[i]
    {
      assert few[i] in many;
    }
  }

  lemma {:induction false} FewerApart(was: seq<seq<Waiter>>, now: seq<seq<Waiter>>, q: nat, stack: seq<Waiter>)
    requires Pairwise(was) && Outside(was, stack) && q < |was| == |now|
    requires forall p :: 0 <= p < |was| && p != q ==> now[p] == was[p]
    requires forall w :: w in now[q] ==> w in was[q]
    ensures Pairwise(now) && Outside(now, stack)
  {
    hide Apart;
    FewerAreApart(now[q], was[q], stack);
    forall p, r | 0 <= p < r < |now|
      ensures Apart(now[p], now[r])
    {
      if p == q {
        FewerAreApart(now[q], was[q], was[r]);
      } else if r == q {
        FewerAreApart(now[q], was[q], was[p]);
      }
      assert Apart(was[p], was[r]);
    }
  }

  lemma {:induction false} PoppedView(stack: seq<Waiter>, lists: seq<seq<Waiter>>, q: nat, n: nat)
    requires q < |lists| && n <= |lists[q]|
    ensures Model(stack, lists[q := lists[q][n..]]) == F.Pop(Model(stack, lists), q, n)
  {
    assert Names(lists[q])[n..] == Names(lists[q][n..]);
    assert Values(lists[q := lists[q][n..]]) == Values(lists)[q := Names(lists[q])[n..]];
  }

  lemma {:induction false} EnqueueNobody(f: F.Futex)
    requires f.inbox == []
    ensures F.Enqueue(f) == f
  {
    forall q | 0 <= q < |f.queues|
      ensures F.Enqueue(f).queues[q] == f.queues[q]
    {
      assert f.queues[q] + [] == f.queues[q];
    }
  }

  lemma {:induction false} DealAllMember(lists: seq<seq<Waiter>>, ws: seq<Waiter>, q: nat, w: Waiter)
    requires q < |lists|
    ensures w in DealAll(lists, ws)[q] <==> w in lists[q] || (w in ws && w.queue == q)
    decreases |ws|
  {
    if ws != [] {
      assert ws == [ws[0]] + ws[1..];
      DealAllMember(Deal(lists, ws[0]), ws[1..], q, w);
    }
  }

  /** After the flip a cancelled waiter is in its queue or in no list at all. */
  lemma {:induction false} CancelFinds(lists: seq<seq<Waiter>>, ws: seq<Waiter>, w: Waiter)
    requires w.queue < |lists|
    requires w in ws || w in lists[w.queue] || (Apart(ws, [w]) && Apart(lists[w.queue], [w]))
    ensures var now := DealAll(lists, ws)[w.queue];
            if w in ws || w in lists[w.queue] then w in now else Apart(now, [w])
  {
    var now := DealAll(lists, ws)[w.queue];
    DealAllMember(lists, ws, w.queue, w);
    if w !in ws && w !in lists[w.queue] {
      forall i | 0 <= i < |now|
        ensures now[i].task != w.task
      {
        DealAllMember(lists, ws, w.queue, now[i]);
        TaskApart(ws, w, now[i]);
        TaskApart(lists[w.queue], w, now[i]);
      }
    }
  }

  lemma {:induction false} TaskApart(ws: seq<Waiter>, w: Waiter, v: Waiter)
    ensures Apart(ws, [w]) && v in ws ==> v.task != w.task
  {
    assert [w][0] == w;
  }

  lemma {:induction false} WithoutFewer(ws: seq<Waiter>, w: Waiter)
    ensures forall v :: v in Without(ws, w) ==> v in ws
  {
    if ws != [] {
      WithoutFewer(ws[1..], w);
    }
  }

  lemma {:induction false} WithoutNames(ws: seq<Waiter>, w: Waiter)
    requires Distinct(ws) && (w in ws || Apart(ws, [w]))
    ensures Names(Without(ws, w)) == Without(Names(ws), Name(w))
  {
    if ws != [] {
      assert Names(ws)[1..] == Names(ws[1..]);
      if ws[0] != w {
        TaskApart(ws, w, ws[0]);
        if w in ws {
          var i :| 0 <= i < |ws| && ws[i] == w;
          assert ws[0].task != ws[i].task && ws[1..][i - 1] == w;
        } else {
          RestApart(ws, w);
        }
        WithoutNames(ws[1..], w);
        NamesAppend([ws[0]], Without(ws[1..], w));
        assert Names([ws[0]]) == [Name(ws[0])];
      }
    }
  }

  lemma {:induction false} RestApart(ws: seq<Waiter>, w: Waiter)
    requires ws != [] && Apart(ws, [w])
    ensures Apart(ws[1..], [w])
  {
  }

  lemma {:induction false} WithoutGone(ws: seq<Waiter>, w: Waiter)
    requires Distinct(ws)
    ensures w !in Without(ws, w)
  {
    if ws != [] {
      if ws[0] == w {
        forall i | 0 <= i < |ws| - 1
          ensures ws[1..][i] != w
        {
          assert ws[0].task != ws[i + 1].task;
        }
      } else {
        WithoutGone(ws[1..], w);
      }
    }
  }

  lemma {:induction false} UnlinkedView(stack: seq<Waiter>, lists: seq<seq<Waiter>>, w: Waiter)
    requires w.queue < |lists| && Distinct(lists[w.queue])
    requires w in lists[w.queue] || Apart(lists[w.queue], [w])
    ensures Model(stack, lists[w.queue := Without(lists[w.queue], w)]) == F.Unlink(Model(stack, lists), Name(w))
  {
    var q := w.queue;
    WithoutNames(lists[q], w);
    assert Values(lists[q := Without(lists[q], w)]) == Values(lists)[q := Without(Names(lists[q]), Name(w))];
  }

  lemma {:induction false} StackConcat(a: seq<Waiter>, b: seq<Waiter>)
    requires Stacked(a) && Distinct(b) && Apart(a, b) && b != []
    requires b[0].prev == Nth(a, |a| - 1) && b[|b| - 1].next == null
    requires forall i {:trigger b[i].prev} :: 0 < i < |b| ==> b[i].prev == b[i - 1]
    ensures Stacked(a + b)
  {
    var all := a + b;
    forall i | 0 <= i < |all|
      ensures all[i].prev == Nth(all, i - 1)
    {
      assert all[i] == if i < |a| then a[i] else b[i - |a|];
    }
  }

  lemma {:induction false} OutsideConcat(lists: seq<seq<Waiter>>, a: seq<Waiter>, b: seq<Waiter>)
    requires Outside(lists, a) && Outside(lists, b)
    ensures Outside(lists, a + b)
  {
    forall q | 0 <= q < |lists|
      ensures Apart(lists[q], a + b)
    {
      assert Apart(lists[q], a) && Apart(lists[q], b);
    }
  }

  lemma {:induction false} OutsideOne(lists: seq<seq<Waiter>>, w: Waiter)
    requires w.queue < |lists| && forall q :: 0 <= q < |lists| ==> Apart(lists[q], [w])
    ensures Outside(lists, [w]) && Distinct([w])
  {
  }

  lemma {:induction false} GuestApart(lists: seq<seq<Waiter>>, ws: seq<Waiter>, guests: seq<Waiter>)
    requires guests != [] && Outside(lists, guests) && Apart(ws, guests)
    ensures guests[0].queue < |lists| && Apart(ws, [guests[0]])
    ensures forall q :: 0 <= q < |lists| ==> Apart(lists[q], [guests[0]])
  {
  }

  /** The remaining guests are still expected once the first has arrived. */
  lemma {:induction false} GuestsApart(lists: seq<seq<Waiter>>, ws: seq<Waiter>, guests: seq<Waiter>)
    requires guests != [] && Outside(lists, guests) && Apart(ws, guests) && Distinct(guests)
    ensures Outside(lists, guests[1..]) && Apart(ws + [guests[0]], guests[1..]) && Distinct(guests[1..])
    ensures forall g :: g in guests[1..] ==> g != guests[0]
  {
  }

  lemma {:induction false} NotIn(ws: seq<Waiter>, w: Waiter)
    ensures Apart(ws, [w]) ==> w !in ws
  {
    assert [w][0] == w;
  }

  /** The inbox with the guests in it, distributed. */
  lemma {:induction false} FlippedView(ws: seq<Waiter>, lists: seq<seq<Waiter>>, guests: seq<Waiter>)
    ensures Model(ws + guests, lists) == Model(ws, lists).(inbox := Model(ws, lists).inbox + Names(guests))
  {
    NamesAppend(ws, guests);
  }

  lemma {:induction false} FlippedNobody(ws: seq<Waiter>, lists: seq<seq<Waiter>>, guests: seq<Waiter>)
    requires ws + guests == []
    ensures Model(ws, lists) == F.Enqueue(Model(ws, lists).(inbox := Model(ws, lists).inbox + Names(guests)))
    ensures DealAll(lists, ws + guests) == lists
  {
    FlippedView(ws, lists, guests);
    EnqueueNobody(Model(ws + guests, lists));
    assert ws == [];
  }

  lemma {:induction false} ApartPrefix(ws: seq<Waiter>, guests: seq<Waiter>, n: nat, w: Waiter)
    requires n <= |guests| && Apart(guests, [w])
    ensures Apart(ws, [w]) ==> Apart(ws + guests[..n], [w])
    ensures w in ws ==> w in ws + guests[..n]
  {
  }

  lemma {:induction false} MoreApart(ws: seq<Waiter>, guests: seq<Waiter>, n: nat, list: seq<Waiter>)
    requires n <= |guests| && Apart(guests, list) && Apart(ws, list)
    ensures Apart(ws + guests[..n], list)
  {
  }

  lemma {:induction false} RequeuedNames(ws: seq<Waiter>, guests: seq<Waiter>, list: seq<Waiter>)
    ensures Names(ws + guests) + Names(list) == Names(ws) + Names(guests) + Names(list)
  {
    NamesAppend(ws, guests);
  }

  /** Guests stay outside when the inbox is distributed. */
  lemma {:induction false} DealtGuests(lists: seq<seq<Waiter>>, stack: seq<Waiter>, guests: seq<Waiter>)
    requires Outside(lists, guests) && Apart(stack, guests)
    ensures Outside(DealAll(lists, stack), guests) && Apart([], guests)
  {
    var now := DealAll(lists, stack);
    forall q | 0 <= q < |now|
      ensures Apart(now[q], guests)
    {
      forall i, j | 0 <= i < |now[q]| && 0 <= j < |guests|
        ensures now[q][i].task != guests[j].task
      {
        DealAllMember(lists, stack, q, now[q][i]);
        assert Apart(lists[q], guests);
      }
    }
  }

  /** Guests stay outside when a waiter is popped. */
  lemma {:induction false} PoppedGuests(lists: seq<seq<Waiter>>, q: nat, guests: seq<Waiter>)
    requires q < |lists| && lists[q] != [] && Outside(lists, guests)
    ensures Outside(lists[q := lists[q][1..]], guests)
  {
    var now := lists[q := lists[q][1..]];
    forall p | 0 <= p < |now|
      ensures Apart(now[p], guests)
    {
      assert Apart(lists[p], guests);
    }
  }

  /** Whoever is popped is in the queue no more, and everybody else is where they were. */
  lemma {:induction false} PoppedOther(lists: seq<seq<Waiter>>, q: nat, node: Waiter)
    requires q < |lists| && lists[q] != [] && Distinct(lists[q])
    ensures lists[q][0] == node ==> Apart(lists[q][1..], [node]) && Apart([], [node])
    ensures lists[q][0] != node && node in lists[q] ==> node in lists[q][1..]
    ensures Apart(lists[q], [node]) ==> Apart(lists[q][1..], [node]) && lists[q][0] != node
  {
    if Apart(lists[q], [node]) {
      assert lists[q][0].task != [node][0].task;
    }
  }

  /** Popped waiters are in no list any more. */
  lemma {:induction false} PoppedGone(lists: seq<seq<Waiter>>, stack: seq<Waiter>, q: nat, n: nat)
    requires Pairwise(lists) && Outside(lists, stack) && q < |lists| && n <= |lists[q]| && Distinct(lists[q])
    ensures var now := lists[q := lists[q][n..]];
            && (forall w :: w in stack ==> w !in lists[q][..n])
            && forall p, w :: 0 <= p < |now| && w in now[p] ==> w !in lists[q][..n]
  {
    OutsideAll(lists, stack);
    var now := lists[q := lists[q][n..]];
    forall p, w | 0 <= p < |now| && w in now[p]
      ensures w !in lists[q][..n]
    {
      if p != q {
        PairApart(lists, p, q);
      } else {
        SplitApart(lists[q], n, w);
      }
    }
  }

  lemma {:induction false} FirstGone(lists: seq<seq<Waiter>>, stack: seq<Waiter>, q: nat, w: Waiter)
    requires Pairwise(lists) && Outside(lists, stack) && q < |lists| && Distinct(lists[q])
    requires lists[q] != [] && lists[q][0] == w
    ensures w !in stack
    ensures var now := lists[q := lists[q][1..]];
            forall p, v :: 0 <= p < |now| && v in now[p] ==> v != w
  {
    PoppedGone(lists, stack, q, 1);
    assert lists[q][..1] == [w];
  }

  lemma {:induction false} SplitApart(ws: seq<Waiter>, n: nat, w: Waiter)
    requires Distinct(ws) && n <= |ws| && w in ws[n..]
    ensures w !in ws[..n]
  {
  }

  lemma {:induction false} ApartObjects(a: seq<Waiter>, b: seq<Waiter>)
    requires Apart(a, b)
    ensures forall w :: w in a ==> w !in b
  {
  }

  lemma {:induction false} OutsideAt(lists: seq<seq<Waiter>>, ws: seq<Waiter>)
    requires Outside(lists, ws) && ws != [] && Distinct(ws)
    ensures ws[0].queue < |lists| && Apart(lists[ws[0].queue], [ws[0]])
    ensures forall w :: w in ws[1..] ==> w != ws[0]
    ensures forall q, w :: 0 <= q < |lists| && w in lists[q] ==> w !in ws
  {
    forall q | 0 <= q < |lists|
      ensures forall w :: w in lists[q] ==> w !in ws
    {
      ApartObjects(lists[q], ws);
    }
  }

  lemma {:induction false} DealtOutside(lists: seq<seq<Waiter>>, ws: seq<Waiter>)
    requires Outside(lists, ws) && Pairwise(lists) && Distinct(ws) && ws != []
    ensures Outside(Deal(lists, ws[0]), ws[1..]) && Pairwise(Deal(lists, ws[0]))
    ensures forall p, w :: 0 <= p < |lists| && p != ws[0].queue && w in lists[p] ==> w !in lists[ws[0].queue]
  {
    var q := ws[0].queue;
    forall p, w | 0 <= p < |lists| && p != q && w in lists[p]
      ensures w !in lists[q]
    {
      if p < q {
        ApartObjects(lists[p], lists[q]);
      } else {
        ApartObjects(lists[q], lists[p]);
      }
    }
  }
}
