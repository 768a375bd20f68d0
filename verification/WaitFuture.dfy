/** One wait: the future that polls it, the waker slot it shares with whoever wakes it,
  and what becomes of every waker it clones.

  The source's waiter is two objects here: its links, which belong to the lists of the
  futex, and its waker slot. Another thread may wake the waiter while it is listed, at any
  point between two accesses of the future; Meanwhile says what happens to the slot, and
  Notified what a notifier does to futex and slot.
 */
module WaitFutures {
  import F = Futex
  import L = WaiterLists
  import opened RawFutexes

  datatype Step = Enter | Waiting | Done

  /** A waker is named by the number of its clone. */
  datatype Slot = None | Holds(waker: nat) | Woken

  datatype Meanwhile = Nothing | Spurious | Wake

  /** What a poll returns: Ready(true), Ready(false) or Pending. */
  datatype Poll = Ready(woken: bool) | Pending

  class Waiter {
    var slot: Slot
    /** The waiter is in a list of the futex or in the hand of a notifier. */
    ghost var listed: bool
    /** How many wakers have been cloned so far. */
    var cloned: nat
    ghost var spent: multiset<nat>
    ghost var wakes: nat

    /** Every cloned waker is in the slot or has been woken or dropped, exactly once. */
    ghost predicate Conserved()
      reads this
    {
      forall w: nat :: spent[w] + (if slot == Holds(w) then 1 else 0) == (if w < cloned then 1 else 0)
    }

    ghost predicate Valid()
      reads this
    {
      && Conserved()
      && (listed ==> slot.Holds? && wakes == 0)
      && (slot.Woken? ==> wakes == 1 && !listed)
    }

    constructor ()
      ensures Valid() && slot == None && !listed && cloned == 0 && wakes == 0
    {
      slot, listed, cloned, spent, wakes := None, false, 0, multiset{}, 0;
    }

    /** Waking a listed waiter finds its waker, invokes it, and leaves the slot Done. */
    method WakeUp()
      requires Valid() && listed
      modifies this
      ensures Valid() && old(slot).Holds? && slot == Woken && !listed && wakes == 1 && cloned == old(cloned)
      ensures spent == old(spent) + multiset{old(slot).waker}
    {
      ghost var was := slot;
      slot := Woken;
      listed, wakes, spent := false, wakes + 1, spent + multiset{was.waker};
    }

    /** The waiter goes out of scope. */
    method Drop()
      requires Valid() && !listed
      modifies this
      ensures slot == None && forall w: nat :: spent[w] == if w < old(cloned) then 1 else 0
    {
      if slot.Holds? {
        spent := spent + multiset{slot.waker};
      }
      slot := None;
    }
  }

  class WaitFuture {
    var step: Step
    const waiter: Waiter
    const futex: RawFutex
    const node: L.Waiter
    ghost var pendingRuns: nat
    ghost var wokenRuns: nat
    ghost var sleepingRuns: nat

    /** on_pending has run exactly if the wait took effect; no cancellation has run. */
    ghost predicate Valid()
      reads this, waiter
    {
      && waiter.Valid()
      && wokenRuns == 0 && sleepingRuns == 0
      && match step
         case Enter => pendingRuns == 0 && !waiter.listed && waiter.wakes == 0 && !waiter.slot.Woken?
         case Waiting => pendingRuns == 1 && (waiter.listed || waiter.slot.Woken?)
         case Done => pendingRuns == 1 && waiter.slot.Woken? && waiter.wakes == 1
    }

    /** The waiter is in a list of the futex as long as nobody has woken it, and in none
      afterwards. */
    ghost predicate Placed()
      reads waiter, node, futex, futex.repr, futex.queues
    {
      && futex.Valid() && node.queue < |futex.queues|
      && if waiter.listed then futex.Lists(node) else futex.Detached(node)
    }

    constructor (waiter: Waiter, futex: RawFutex, node: L.Waiter)
      requires waiter.Valid() && !waiter.listed && waiter.wakes == 0 && !waiter.slot.Woken?
      ensures Valid() && step == Enter && this.waiter == waiter && this.futex == futex && this.node == node
    {
      step := Enter;
      this.waiter, this.futex, this.node := waiter, futex, node;
      pendingRuns, wokenRuns, sleepingRuns := 0, 0, 0;
    }

    /** The first poll: a waker is cloned unless one is left from a failed attempt, and the
      wait takes effect, with the waiter as top of the inbox, exactly if the futex still is
      what the caller has seen and the swap does not fail for no reason. */
    method PollEnter(current: Atom, new_: nat, spurious: bool) returns (r: Poll, seen: Atom)
      requires Valid() && step == Enter && futex.Valid() && node.queue < |futex.queues| && futex.Welcome(node)
      modifies this, waiter, futex`word, futex`inbox, futex`stack, futex`repr, node`prev
      ensures Valid() && waiter.slot.Holds? && seen == Atom(old(futex.word), old(futex.inbox))
      ensures if !spurious && current == seen then
                && r == Pending && step == Waiting && waiter.listed && Placed()
                && futex.word == new_ && futex.View() == F.Push(old(futex.View()), L.Name(node))
              else
                && r == Ready(false) && step == Enter && futex.Valid() && futex.Welcome(node)
                && futex.word == seen.word && futex.View() == old(futex.View())
      ensures waiter.cloned == old(waiter.cloned) + if old(waiter.slot).None? then 1 else 0
      ensures waiter.spent == old(waiter.spent)
    {
      hide RawFutex.Valid, RawFutex.View, RawFutex.Detached, RawFutex.Lists, RawFutex.Welcome, Waiter.Conserved;
      PlaceWaker();
      var swaps: bool;
      swaps, seen := futex.CmpxchgWaitWeak(node, current, new_, spurious);
      if swaps {
        Parks();
        r := Pending;
      } else {
        r := Ready(false);
      }
    }

    method PlaceWaker()
      requires Valid() && step == Enter
      modifies waiter
      ensures Valid() && waiter.slot.Holds? && waiter.spent == old(waiter.spent)
      ensures waiter.cloned == old(waiter.cloned) + if old(waiter.slot).None? then 1 else 0
    {
      if waiter.slot.None? {
        waiter.slot := Holds(waiter.cloned);
        waiter.cloned := waiter.cloned + 1;
      }
    }

    method Parks()
      requires Valid() && step == Enter && waiter.slot.Holds?
      modifies this, waiter`listed
      ensures Valid() && step == Waiting && waiter.listed
    {
      step := Waiting;
      waiter.listed := true;
      pendingRuns := pendingRuns + 1;
    }

    /** A later poll: the waker is renewed while the slot still has one, and the poll
      returns true once the waiter has been woken. */
    method PollWaiting(script: seq<Meanwhile>) returns (r: Poll)
      requires Valid() && step == Waiting
      modifies this, waiter
      ensures Valid() && waiter.cloned == old(waiter.cloned) + 1
      ensures r == Ready(true) || r == Pending
      ensures r == Ready(true) <==> waiter.slot.Woken?
      ensures r == Ready(true) <==> waiter.wakes == 1
      ensures step == if r == Pending then Waiting else Done
      ensures r == Pending ==> waiter.slot == Holds(old(waiter.cloned)) && waiter.listed
    {
      var renewed := waiter.cloned;
      waiter.cloned := waiter.cloned + 1;
      var seen := waiter.slot;
      var n := 0;
      while true
        invariant 0 <= n <= |script| && step == Waiting && pendingRuns == 1 && wokenRuns == 0 && sleepingRuns == 0
        invariant Renewing(renewed) && renewed == old(waiter.cloned) && waiter.cloned == renewed + 1
        invariant seen.Woken? ==> waiter.slot.Woken?
        invariant seen.Holds? && waiter.slot.Holds? ==> seen == waiter.slot
        invariant seen != None
        decreases |script| - n, if seen == waiter.slot then 0 else 1
      {
        match seen
        case Holds(was) =>
          var next := if n < |script| then script[n] else Nothing;
          n := if n < |script| then n + 1 else n;
          if next == Wake && waiter.slot.Holds? {
            Interrupted(renewed);
          }
          if next != Spurious && waiter.slot == seen {
            Renew(was, renewed);
            return Pending;
          }
          seen := waiter.slot;
        case Woken =>
          Finish(renewed);
          return Ready(true);
      }
    }

    /** The waiter is sound but for a waker that the future has cloned and not placed. */
    ghost predicate Renewing(renewed: nat)
      reads this, waiter
    {
      && (forall w: nat ::
            waiter.spent[w] + (if waiter.slot == Holds(w) then 1 else 0) + (if w == renewed then 1 else 0)
            == (if w < waiter.cloned then 1 else 0))
      && (waiter.listed ==> waiter.slot.Holds? && waiter.wakes == 0)
      && (waiter.slot.Woken? ==> waiter.wakes == 1 && !waiter.listed)
      && (waiter.listed || waiter.slot.Woken?)
    }

    /** The slot takes the renewed waker and the one it had is dropped. */
    method Renew(was: nat, renewed: nat)
      requires Renewing(renewed) && waiter.slot == Holds(was)
      modifies waiter`slot, waiter`spent
      ensures waiter.Valid() && waiter.slot == Holds(renewed)
    {
      waiter.slot := Holds(renewed);
      waiter.spent := waiter.spent + multiset{was};
    }

    /** The waiter has been woken: the renewed waker is dropped unused. */
    method Finish(renewed: nat)
      requires Renewing(renewed) && waiter.slot.Woken?
      modifies this`step, waiter`spent
      ensures waiter.Valid() && step == Done
    {
      waiter.spent := waiter.spent + multiset{renewed};
      step := Done;
    }

    /** Another thread wakes the waiter while the future is between two accesses. */
    method Interrupted(ghost renewed: nat)
      requires Renewing(renewed) && waiter.slot.Holds?
      modifies waiter
      ensures Renewing(renewed) && waiter.slot.Woken? && waiter.cloned == old(waiter.cloned)
    {
      ghost var was := waiter.slot;
      waiter.slot := Woken;
      waiter.listed, waiter.wakes, waiter.spent := false, waiter.wakes + 1, waiter.spent + multiset{was.waker};
    }

    /** A notifier takes the inbox and pops and wakes the first waiter of the queue, who may
      be this one. */
    method Notified(ghost guests: seq<L.Waiter>)
      requires waiter.Valid() && (waiter.listed || waiter.slot.Woken?) && Placed() && futex.Expected(guests)
      modifies waiter, futex`word, futex`inbox, futex`stack, futex`repr, futex.queues, futex.repr`next, futex.repr`prev
      ensures waiter.Valid() && (waiter.listed || waiter.slot.Woken?) && Placed() && futex.Expected(guests)
      ensures futex.repr <= old(futex.repr) && waiter.cloned == old(waiter.cloned) && waiter.wakes >= old(waiter.wakes)
    {
      hide RawFutex.Valid, RawFutex.Expected, RawFutex.Detached, RawFutex.Lists, RawFutex.View;
      var w := futex.NotifyOne(node, guests);
      if w == node {
        waiter.WakeUp();
      }
    }

    /** Waits for the exclusive guard, then flips and unlinks. */
    method Unlink(guests: seq<L.Waiter>) returns (n: nat, ghost seen: F.Futex)
      requires waiter.Valid() && (waiter.listed || waiter.slot.Woken?) && Placed()
      requires futex.Expected(guests) && L.Apart(guests, [node])
      modifies waiter, futex`word, futex`inbox, futex`stack, futex`repr, futex.queues
      modifies futex.repr`next, futex.repr`prev, guests`next, guests`prev
      ensures waiter.Conserved() && !waiter.listed && waiter.cloned == old(waiter.cloned)
               && waiter.wakes >= old(waiter.wakes)
      ensures (waiter.slot.Holds? && waiter.wakes == 0) || (waiter.slot.Woken? && waiter.wakes == 1)
      ensures n <= |guests| && futex.Valid() && node !in futex.stack && node !in futex.queues[node.queue].nodes
      ensures futex.View() == F.Unlink(F.Enqueue(seen.(inbox := seen.inbox + L.Names(guests[..n]))), L.Name(node))
    {
      hide RawFutex.Valid, RawFutex.Expected, RawFutex.Detached, RawFutex.Lists, RawFutex.View, F.Enqueue, F.Unlink;
      var patience: nat := *;
      while patience > 0
        invariant waiter.Valid() && (waiter.listed || waiter.slot.Woken?) && Placed() && futex.Expected(guests)
        invariant futex.repr <= old(futex.repr) && waiter.cloned == old(waiter.cloned)
                 && waiter.wakes >= old(waiter.wakes)
      {
        Notified(guests);
        patience := patience - 1;
      }
      seen := futex.View();
      n := futex.FlipAndCancel(node, guests);
      waiter.listed := false;
    }

    /** Dropping the future. While it waits for the exclusive guard of a parked one's futex,
      notifiers may wake the waiter. Then the waiter is unlinked, unless it was woken, and
      exactly one of the two cancellation callbacks runs: on_cancel_woken if it was woken,
      on_cancel_sleeping if it was not. seen is the futex as the guard was taken, and n of
      the guests arrive before the flip. */
    method Drop(guests: seq<L.Waiter>) returns (ran: Slot, n: nat, ghost seen: F.Futex)
      requires Valid()
      requires step == Waiting ==> Placed() && futex.Expected(guests) && L.Apart(guests, [node])
      modifies this, waiter, futex`word, futex`inbox, futex`stack, futex`repr, futex.queues
      modifies futex.repr`next, futex.repr`prev, guests`next, guests`prev
      ensures !waiter.listed && waiter.Conserved() && waiter.cloned == old(waiter.cloned)
      ensures wokenRuns + sleepingRuns == (if old(step) == Waiting then 1 else 0)
      ensures wokenRuns == 1 <==> old(step) == Waiting && waiter.wakes == 1
      ensures sleepingRuns == 1 <==> old(step) == Waiting && waiter.wakes == 0
      ensures old(waiter.wakes) <= waiter.wakes && (old(step) != Waiting ==> waiter.wakes == old(waiter.wakes))
      ensures old(step) == Waiting ==> waiter.slot == None
      ensures old(step) != Waiting ==> waiter.slot == old(waiter.slot)
      ensures old(step) == Waiting ==>
                && n <= |guests| && futex.Valid() && node !in futex.stack && node !in futex.queues[node.queue].nodes
                && futex.View() == F.Unlink(F.Enqueue(seen.(inbox := seen.inbox + L.Names(guests[..n]))), L.Name(node))
    {
      hide RawFutex.Valid, RawFutex.Expected, RawFutex.Detached, RawFutex.Lists, RawFutex.View, F.Enqueue, F.Unlink,
          Waiter.Conserved;
      ran, n, seen := None, 0, futex.View();
      if step == Waiting {
        n, seen := Unlink(guests);
        ran := RunCallback();
      }
      step := Done;
    }

    /** The slot tells which of the two callbacks runs. */
    method RunCallback() returns (ran: Slot)
      requires waiter.Conserved() && wokenRuns == 0 && sleepingRuns == 0
      requires (waiter.slot.Holds? && waiter.wakes == 0) || (waiter.slot.Woken? && waiter.wakes == 1)
      modifies this`wokenRuns, this`sleepingRuns, waiter`slot, waiter`spent
      ensures waiter.Conserved() && waiter.slot == None && ran == old(waiter.slot) && wokenRuns + sleepingRuns == 1
      ensures (wokenRuns == 1 <==> waiter.wakes == 1) && (sleepingRuns == 1 <==> waiter.wakes == 0)
    {
      ran := waiter.slot;
      match waiter.slot {
        case Holds(was) =>
          waiter.spent := waiter.spent + multiset{was};
          sleepingRuns := sleepingRuns + 1;
        case Woken =>
          wokenRuns := wokenRuns + 1;
      }
      waiter.slot := None;
    }
  }
}
