/** The channel as its code is written, in the manner of RwLockCode: one object with an
  array of buckets, updated in place by send() and by the polls of recv(), with any steps
  of others in between, shown to go on with a run of the machine in Mpsc.
 */
module MpscCode {
  import opened Attempts
  import opened Futex
  import opened Mpsc
  import opened MpscOrder
  import opened MpscProof
  import opened Options
  import opened Traces

  /** What a poll of the receiver comes to. */
  datatype Outcome = Got(message: nat) | Blocked | Cut

  class Inner {
    const buckets: array<Bucket>
    var word: Word
    var futex: Futex
    /** recv_state: the registered waker, if any. */
    var slot: Option<nat>
    var recvHead: nat
    /** Where everybody is, and the histories of Mpsc. */
    var recv: Recv
    var senders: seq<Sender>
    var polls: nat
    var rung: set<nat>
    var accepted: seq<nat>
    var received: seq<nat>
    ghost const size: nat
    ghost var trace: seq<(Actor, Choice)>

    function Abs(): State
      reads this, buckets
    {
      State(buckets[..], word, futex, slot, polls, rung, recvHead, recv, senders, accepted, received)
    }

    /** The state is the outcome of a run. */
    ghost predicate Valid()
      reads this, buckets
    {
      buckets.Length > 0 && Abs() == Run(Init(buckets.Length, size), trace)
    }

    /** The same object, later. */
    twostate predicate Later()
      reads this, buckets
    {
      Valid() && |senders| == old(|senders|) && Extends(old(trace), trace)
    }

    constructor (cap: nat, size: nat)
      requires cap > 0
      ensures Valid() && buckets.Length == cap && fresh(buckets) && this.size == size && trace == []
    {
      buckets := new Bucket[cap](_ => Bucket(false, None));
      word, futex, slot, recvHead, recv := Mpsc.Word(0, 0), New(1), None, 0, Rest;
      senders, polls, rung, accepted, received := seq(size, _ => Sender(Ready, true)), 0, {}, [], [];
      this.size, trace := size, [];
      new;
      assert buckets[..] == seq(cap, _ => Bucket(false, None));
    }

    // ----- the rest of the world -----

    /** A step that was taken is added to the run. */
    ghost method Record(was: State, a: Actor, c: Choice)
      requires buckets.Length > 0 && was == Run(Init(buckets.Length, size), trace) && Abs() == Step(was, a, c)
      modifies this`trace
      ensures Valid() && Extends(old(trace), trace)
    {
      trace := trace + [(a, c)];
      assert trace[..|trace| - 1] == old(trace);
    }

    method StepOther(a: Actor, c: Choice)
      requires Valid()
      modifies this, buckets
      ensures Later()
      ensures forall t: nat :: t < |senders| && a != Send(t) ==> Touched(old(senders[t]), senders[t])
      ensures a != Receiver ==> recv == old(recv) && received == old(received) && recvHead == old(recvHead)
      ensures a != Receiver ==> polls == old(polls)
    {
      hide Run, Init, Extends, Step;
      ghost var was := Abs();
      StepKeepsSize(Abs(), a, c);
      OthersTouched(Abs(), a, c);
      Become(Step(Abs(), a, c));
      Record(was, a, c);
    }

    method Become(s: State)
      requires |s.buckets| == buckets.Length
      modifies this, buckets
      ensures Abs() == s && trace == old(trace)
    {
      forall i | 0 <= i < buckets.Length {
        buckets[i] := s.buckets[i];
      }
      assert buckets[..] == s.buckets;
      word, futex, slot, polls, rung, recvHead := s.word, s.futex, s.slot, s.polls, s.rung, s.recvHead;
      recv, senders, accepted, received := s.recv, s.senders, s.accepted, s.received;
    }

    /** Anybody but sender t takes any steps. */
    method Others(t: nat)
      requires Valid() && t < |senders|
      modifies this, buckets
      ensures Later() && Touched(old(senders[t]), senders[t])
    {
      hide Run, Init, Extends, Step;
      ExtendsOrder<(Actor, Choice)>();
      var moves: seq<(Actor, Choice)> := *;
      var i := 0;
      while i < |moves|
        invariant 0 <= i <= |moves| && Later() && Touched(old(senders[t]), senders[t])
      {
        var (a, c) := moves[i];
        if a != Send(t) {
          StepOther(a, c);
        }
        i := i + 1;
      }
    }

    /** The senders take any steps. */
    method SendersAct()
      requires Valid()
      modifies this, buckets
      ensures Later() && recv == old(recv) && received == old(received) && recvHead == old(recvHead)
      ensures polls == old(polls)
    {
      hide Run, Init, Extends, Step;
      ExtendsOrder<(Actor, Choice)>();
      var moves: seq<(Actor, Choice)> := *;
      var i := 0;
      while i < |moves|
        invariant 0 <= i <= |moves| && Later() && recv == old(recv) && received == old(received)
        invariant recvHead == old(recvHead) && polls == old(polls)
      {
        var (a, c) := moves[i];
        if a != Receiver {
          StepOther(a, c);
        }
        i := i + 1;
      }
    }

    /** No step of a run makes the receiver's assertions fail. */
    lemma {:induction false} Safe(c: Choice)
      requires Valid()
      ensures !StepRecv(Abs(), c).recv.Crashed?
    {
      hide Run, Init;
      var longer := trace + [(Receiver, c)];
      assert longer[..|longer| - 1] == trace;
      LastStep(Init(buckets.Length, size), trace, Receiver, c);
      ReceiverNeverCrashes(buckets.Length, size, longer);
    }

    /** No sender ever lacks its message. */
    lemma {:induction false} Keeps(t: nat, c: Choice)
      requires Valid() && t < |senders|
      ensures t < |StepSend(Abs(), t, c).senders| && !StepSend(Abs(), t, c).senders[t].pc.Lost?
    {
      hide Run, Init;
      var longer := trace + [(Send(t), c)];
      LastStep(Init(buckets.Length, size), trace, Send(t), c);
      StepKeepsSize(Abs(), Send(t), c);
      SendersKnow(buckets.Length, size, longer, t);
    }

    lemma {:induction false} HeadInRange()
      requires Valid()
      ensures recvHead < buckets.Length
    {
      hide Run, Init;
      RunKeeps(buckets.Length, size, trace);
      InvParts(Abs());
    }

    // ----- the futex -----

    function Load(): Snap<Word>
      reads this
    {
      Snap(word, Top(futex))
    }


    // ----- send() -----

    /** Returns once the message has been accepted, if it is let to finish. */
    method SendMessage(t: nat) returns (ok: bool)
      requires Valid() && t < |senders| && senders[t].pc == Ready
      modifies this, buckets
      ensures Later() && senders[t].pc != Ready && (ok ==> senders[t].pc == Sent && t in accepted)
    {
      hide Run, Init, Extends, Step;
      ExtendsOrder<(Actor, Choice)>();
      var snap := BeginSend(t);
      var place: Option<nat> := None;
      var parked := false;
      var patience: nat := *;
      while place.None? && !parked && patience > 0
        invariant Later() && !(place.Some? && parked)
        invariant if parked then senders[t].pc.Parked? else if place.Some? then AtFill(senders[t].pc, place.value)
                  else senders[t].pc == SendTry(snap)
      {
        Others(t);
        place, parked, snap := AttemptSend(t, snap);
        patience := patience - 1;
      }
      ok := place.Some?;
      if ok {
        Fill(t, place.value);
        Notify(t);
      } else if parked {
        ok := Await(t);
      }
      if ok {
        SentIsAccepted(t);
      }
    }

    lemma {:induction false} SentIsAccepted(t: nat)
      requires Valid() && t < |senders| && senders[t].pc == Sent
      ensures t in accepted
    {
      hide Run, Init;
      SendOutcome(buckets.Length, size, trace, t);
    }

    method BeginSend(t: nat) returns (snap: Snap<Word>)
      requires Valid() && t < |senders| && senders[t].pc == Ready
      modifies this
      ensures Later() && senders[t].pc == SendTry(snap)
    {
      hide Run, Init, Extends;
      ghost var was := Abs();
      snap := Load();
      senders := senders[t := senders[t].(pc := SendTry(snap))];
      Record(was, Send(t), Choice(Proceed, false));
    }

    /** One round of the loop: a place of its own while there is one, or a wait. */
    method AttemptSend(t: nat, snap: Snap<Word>) returns (place: Option<nat>, parked: bool, seen: Snap<Word>)
      requires Valid() && t < |senders| && senders[t].pc == SendTry(snap)
      modifies this
      ensures Later() && !(place.Some? && parked)
      ensures if parked then senders[t].pc == Parked(false) else if place.Some? then AtFill(senders[t].pc, place.value)
              else senders[t].pc == SendTry(seen)
    {
      hide Run, Init, Extends;
      var spurious: bool := *;
      ghost var was := Abs();
      place, parked := None, false;
      if snap.word.size < buckets.Length {
        var selected := snap.word.writeHead;
        var next := Mpsc.Word((snap.word.writeHead + 1) % buckets.Length, snap.word.size + 1);
        var ok: bool;
        ok, seen, word := CmpxchgWeak(Load(), snap, next, spurious);
        senders := senders[t := senders[t].(pc := if ok then SendFill(selected, |accepted|) else SendTry(seen))];
        if ok {
          place, accepted := Some(selected), accepted + [t];
        }
      } else {
        parked, seen, word, futex := CmpxchgWaitWeak(Load(), futex, Waiter(t, 0), snap, snap.word, spurious);
        senders := senders[t := senders[t].(pc := if parked then Parked(false) else SendTry(seen))];
      }
      Record(was, Send(t), Choice(Proceed, spurious));
    }

    /** Takes the message, which is still there, and fills the selected bucket. */
    method Fill(t: nat, selected: nat)
      requires Valid() && t < |senders| && AtFill(senders[t].pc, selected)
      modifies this, buckets
      ensures Later() && senders[t].pc == SendSwap
    {
      hide Run, Init, Extends;
      ExtendsOrder<(Actor, Choice)>();
      Others(t);
      Keeps(t, Choice(Proceed, false));
      assert selected < buckets.Length && senders[t].full;
      ghost var was := Abs();
      buckets[selected] := Bucket(true, Some(t));
      senders := senders[t := Sender(SendSwap, false)];
      Record(was, Send(t), Choice(Proceed, false));
    }

    /** Takes the receiver's registered waker, if any, and invokes it. */
    method Notify(t: nat)
      requires Valid() && t < |senders| && senders[t].pc == SendSwap
      modifies this, buckets
      ensures Later() && senders[t].pc == Sent
    {
      hide Run, Init, Extends, Step;
      ExtendsOrder<(Actor, Choice)>();
      Others(t);
      var poll := SwapDirty(t);
      if poll.Some? {
        Others(t);
        Ring(t, poll.value);
      }
    }

    method SwapDirty(t: nat) returns (poll: Option<nat>)
      requires Valid() && t < |senders| && senders[t].pc == SendSwap
      modifies this
      ensures Later() && senders[t].pc == if poll.Some? then SendRing(poll.value) else Sent
    {
      hide Run, Init, Extends;
      ghost var was := Abs();
      poll, slot := slot, None;
      senders := senders[t := senders[t].(pc := if poll.Some? then SendRing(poll.value) else Sent)];
      Record(was, Send(t), Choice(Proceed, false));
    }

    method Ring(t: nat, poll: nat)
      requires Valid() && t < |senders| && senders[t].pc == SendRing(poll)
      modifies this
      ensures Later() && senders[t].pc == Sent
    {
      hide Run, Init, Extends;
      ghost var was := Abs();
      rung := rung + {poll};
      senders := senders[t := senders[t].(pc := Sent)];
      Record(was, Send(t), Choice(Proceed, false));
    }

    /** A blocked sender polls until it has been served. */
    method Await(t: nat) returns (ok: bool)
      requires Valid() && t < |senders| && senders[t].pc.Parked?
      modifies this, buckets
      ensures Later() && if ok then senders[t].pc == Sent else senders[t].pc.Parked?
    {
      hide Run, Init, Extends;
      ExtendsOrder<(Actor, Choice)>();
      var patience: nat := *;
      while patience > 0 && senders[t].pc == Parked(false)
        invariant Later() && senders[t].pc.Parked?
      {
        Others(t);
        patience := patience - 1;
      }
      ok := senders[t].pc == Parked(true);
      if ok {
        ghost var was := Abs();
        senders := senders[t := senders[t].(pc := Sent)];
        Record(was, Send(t), Choice(Proceed, false));
      }
    }

    // ----- recv() -----

    /** One poll: blocked, with this poll's waker registered, or the next message, taken out
      in order; giving its place away may be cut short. */
    method Poll() returns (r: Outcome)
      requires Valid() && (recv.Rest? || recv.Pending?)
      modifies this, buckets
      ensures Later()
      ensures r.Got? ==> received == old(received) + [r.message] && recv.Rest?
      ensures r.Blocked? ==> received == old(received) && recv == Pending(old(polls)) && polls == old(polls) + 1
      ensures r.Cut? ==> old(received) < received && |received| == |old(received)| + 1
    {
      hide Run, Init, Extends, Step, StepRecv;
      ExtendsOrder<(Actor, Choice)>();
      BeginPoll();
      SendersAct();
      var filled := LookAtHead();
      if !filled {
        filled := RegisterAndLook();
        if !filled {
          return Blocked;
        }
      }
      SendersAct();
      var head, message := Take();
      var done := GiveAway(head);
      r := if done then Got(message) else Cut;
    }

    /** A step of the receiver that changes nothing but where it is. */
    method Go(next: Recv, c: Choice)
      requires Valid() && Abs().(recv := next) == StepRecv(Abs(), c)
      modifies this
      ensures Later() && recv == next && received == old(received) && polls == old(polls)
    {
      hide Run, Init, Extends, StepRecv;
      ghost var was := Abs();
      recv := next;
      Record(was, Receiver, c);
    }

    method BeginPoll()
      requires Valid() && (recv.Rest? || recv.Pending?)
      modifies this
      ensures Later() && recv == Look && received == old(received) && polls == old(polls)
    {
      hide Run, Init, Extends;
      Go(Look, Choice(Proceed, false));
    }

    method LookAtHead() returns (filled: bool)
      requires Valid() && recv == Look
      modifies this
      ensures Later() && received == old(received) && recv == if filled then Consume else Register
      ensures polls == old(polls)
    {
      hide Run, Init, Extends;
      HeadInRange();
      filled := buckets[recvHead].filled;
      Go(if filled then Consume else Register, Choice(Proceed, false));
    }

    /** The waker is registered before the bucket is looked at again. */
    method RegisterAndLook() returns (filled: bool)
      requires Valid() && recv == Register
      modifies this, buckets
      ensures Later() && received == old(received) && polls == old(polls) + 1
      ensures recv == if filled then Consume else Pending(old(polls))
    {
      hide Run, Init, Extends, Step, StepRecv;
      ExtendsOrder<(Actor, Choice)>();
      SendersAct();
      var poll := RegisterWaker();
      SendersAct();
      filled := LookAgain(poll);
      if filled {
        SendersAct();
        Unregisters();
      }
    }

    method RegisterWaker() returns (poll: nat)
      requires Valid() && recv == Register
      modifies this
      ensures Later() && received == old(received) && recv == Recheck(poll)
      ensures poll == old(polls) && polls == old(polls) + 1
    {
      hide Run, Init, Extends;
      ghost var was := Abs();
      poll := polls;
      slot, polls, recv := Some(poll), polls + 1, Recheck(poll);
      Record(was, Receiver, Choice(Proceed, false));
    }

    method LookAgain(poll: nat) returns (filled: bool)
      requires Valid() && recv == Recheck(poll)
      modifies this
      ensures Later() && received == old(received) && recv == if filled then Unregister else Pending(poll)
      ensures polls == old(polls)
    {
      hide Run, Init, Extends;
      HeadInRange();
      filled := buckets[recvHead].filled;
      Go(if filled then Unregister else Pending(poll), Choice(Proceed, false));
    }

    method Unregisters()
      requires Valid() && recv == Unregister
      modifies this
      ensures Later() && received == old(received) && recv == Consume && polls == old(polls)
    {
      hide Run, Init, Extends;
      ghost var was := Abs();
      slot, recv := None, Consume;
      Record(was, Receiver, Choice(Proceed, false));
    }

    /** Empties the bucket, in which there is a message, and moves on to the next. */
    method Take() returns (head: nat, message: nat)
      requires Valid() && recv == Consume
      modifies this, buckets
      ensures Later() && received == old(received) + [message] && recv == TakeGuard(head)
    {
      hide Run, Init, Extends;
      HeadInRange();
      Safe(Choice(Proceed, false));
      assert buckets[recvHead].data.Some?;
      ghost var was := Abs();
      head, message := recvHead, buckets[recvHead].data.value;
      buckets[recvHead] := Bucket(false, None);
      recvHead, received, recv := (head + 1) % buckets.Length, received + [message], TakeGuard(head);
      Record(was, Receiver, Choice(Proceed, false));
    }

    /** The emptied bucket goes to the first blocked sender, or is free. */
    method GiveAway(head: nat) returns (done: bool)
      requires Valid() && recv == TakeGuard(head)
      modifies this, buckets
      ensures Later() && received == old(received) && (done ==> recv == Rest)
    {
      hide Run, Init, Extends, Step, StepRecv;
      ExtendsOrder<(Actor, Choice)>();
      done := LockWaiters(head);
      if !done {
        return;
      }
      LockQueue(head);
      SendersAct();
      var w, snap := PopOrLook(head);
      if w.Some? {
        done := AdvanceHead(head, snap, w.value);
      } else {
        done, w := DecideWord(head, snap);
      }
      if done {
        if w.Some? {
          BackfillAndWake(head, w.value);
        }
        Finish();
      }
    }

    method LockWaiters(head: nat) returns (locked: bool)
      requires Valid() && recv == TakeGuard(head)
      modifies this, buckets
      ensures Later() && received == old(received) && (locked ==> recv == TakeQueue(head))
    {
      hide Run, Init, Extends, Step, StepRecv;
      ExtendsOrder<(Actor, Choice)>();
      locked := false;
      var patience: nat := *;
      while !locked && patience > 0
        invariant Later() && received == old(received) && recv == if locked then TakeQueue(head) else TakeGuard(head)
      {
        SendersAct();
        locked := TryShare(head);
        patience := patience - 1;
      }
    }

    method TryShare(head: nat) returns (ok: bool)
      requires Valid() && recv == TakeGuard(head)
      modifies this
      ensures Later() && received == old(received) && recv == if ok then TakeQueue(head) else TakeGuard(head)
    {
      hide Run, Init, Extends;
      ExtendsOrder<(Actor, Choice)>();
      ok := !futex.exclusive;
      if ok {
        ghost var was := Abs();
        futex, recv := Share(futex), TakeQueue(head);
        Record(was, Receiver, Choice(Proceed, false));
      }
    }

    /** The borrow asserts that nobody else has it. */
    method LockQueue(head: nat)
      requires Valid() && recv == TakeQueue(head)
      modifies this, buckets
      ensures Later() && received == old(received) && recv == PopFirst(head)
    {
      hide Run, Init, Extends;
      ExtendsOrder<(Actor, Choice)>();
      SendersAct();
      Safe(Choice(Proceed, false));
      assert !futex.borrowed;
      ghost var was := Abs();
      futex, recv := TakeBorrow(futex), PopFirst(head);
      Record(was, Receiver, Choice(Proceed, false));
    }

    method PopOrLook(head: nat) returns (w: Option<Waiter>, snap: Snap<Word>)
      requires Valid() && recv == PopFirst(head)
      modifies this
      ensures Later() && received == old(received)
      ensures recv == if w.Some? then Advance(head, snap, w.value) else Decide(head, snap)
    {
      hide Run, Init, Extends;
      ghost var was := Abs();
      w, snap := None, Load();
      if Front(futex) != [] {
        w := Some(futex.queues[0][0]);
        futex, recv := Pop(futex, 0, 1), Advance(head, snap, w.value);
      } else {
        recv := Decide(head, snap);
      }
      Record(was, Receiver, Choice(Proceed, false));
    }

    /** A popped sender is given the place; the channel is full all the time. */
    method AdvanceHead(head: nat, begun: Snap<Word>, w: Waiter) returns (done: bool)
      requires Valid() && recv == Advance(head, begun, w)
      modifies this, buckets
      ensures Later() && received == old(received) && (done ==> recv == Backfill(head, w))
    {
      hide Run, Init, Extends, Step, StepRecv;
      ExtendsOrder<(Actor, Choice)>();
      var snap := begun;
      done := false;
      var patience: nat := *;
      while !done && patience > 0
        invariant Later() && received == old(received)
        invariant recv == if done then Backfill(head, w) else Advance(head, snap, w)
      {
        SendersAct();
        done, snap := AttemptAdvance(head, snap, w);
        patience := patience - 1;
      }
    }

    method AttemptAdvance(head: nat, snap: Snap<Word>, w: Waiter) returns (ok: bool, seen: Snap<Word>)
      requires Valid() && recv == Advance(head, snap, w)
      modifies this
      ensures Later() && received == old(received)
      ensures recv == if ok then Backfill(head, w) else Advance(head, seen, w)
    {
      hide Run, Init, Extends;
      var spurious: bool := *;
      Safe(Choice(Proceed, spurious));
      assert snap.word.size == buckets.Length;
      ghost var was := Abs();
      ok, seen, word := CmpxchgWeak(Load(), snap,
          Mpsc.Word((snap.word.writeHead + 1) % buckets.Length, snap.word.size), spurious);
      if ok {
        recv, accepted := Backfill(head, w), accepted + [w.task];
      } else {
        recv := Advance(head, seen, w);
      }
      Record(was, Receiver, Choice(Proceed, spurious));
    }

    /** Nobody was queued: whoever is in the inbox is given the place, or the size goes
      down. */
    method DecideWord(head: nat, begun: Snap<Word>) returns (done: bool, w: Option<Waiter>)
      requires Valid() && recv == Decide(head, begun)
      modifies this, buckets
      ensures Later() && received == old(received)
      ensures done ==> recv == if w.Some? then Backfill(head, w.value) else Return
    {
      hide Run, Init, Extends, Step, StepRecv;
      ExtendsOrder<(Actor, Choice)>();
      var snap := begun;
      done, w := false, None;
      var patience: nat := *;
      while !done && patience > 0
        invariant Later() && received == old(received)
        invariant recv == if !done then Decide(head, snap) else if w.Some? then Backfill(head, w.value) else Return
      {
        SendersAct();
        if snap.inbox.Some? {
          done, snap, w := TakeInbox(head, snap);
        } else {
          done, snap, w := TakeNothing(head, snap);
        }
        patience := patience - 1;
      }
    }

    method TakeInbox(head: nat, snap: Snap<Word>) returns (ok: bool, seen: Snap<Word>, w: Option<Waiter>)
      requires Valid() && recv == Decide(head, snap) && snap.inbox.Some?
      modifies this
      ensures Later() && received == old(received)
      ensures recv == if !ok then Decide(head, seen) else if w.Some? then Backfill(head, w.value) else Return
    {
      hide Run, Init, Extends, Enqueue, Pop, StepConsume, StepPop, StepAdvance, StepBackfill, StepWake, StepSend,
          Filled, Front;
      var spurious: bool := *;
      Safe(Choice(Proceed, spurious));
      assert snap.word.size == buckets.Length;
      ghost var was := Abs();
      var next := Mpsc.Word((snap.word.writeHead + 1) % buckets.Length, snap.word.size);
      ok, seen, word, futex := CmpxchgEnqueueWeak(Load(), futex, snap, next, spurious);
      w := None;
      if ok {
        w := PopWaiter(head);
      } else {
        recv := Decide(head, seen);
      }
      Record(was, Receiver, Choice(Proceed, spurious));
    }

    /** The size never goes below zero. */
    method TakeNothing(head: nat, snap: Snap<Word>) returns (ok: bool, seen: Snap<Word>, w: Option<Waiter>)
      requires Valid() && recv == Decide(head, snap) && snap.inbox.None?
      modifies this
      ensures Later() && received == old(received)
      ensures recv == if !ok then Decide(head, seen) else if w.Some? then Backfill(head, w.value) else Return
    {
      hide Run, Init, Extends, Enqueue, Pop, StepConsume, StepPop, StepAdvance, StepBackfill, StepWake, StepSend,
          Filled, Front;
      var spurious: bool := *;
      Safe(Choice(Proceed, spurious));
      assert snap.word.size >= 1;
      ghost var was := Abs();
      ok, seen, word, futex := CmpxchgEnqueueWeak(Load(), futex, snap,
          Mpsc.Word(snap.word.writeHead, snap.word.size - 1), spurious);
      w := None;
      if ok {
        w := PopWaiter(head);
      } else {
        recv := Decide(head, seen);
      }
      Record(was, Receiver, Choice(Proceed, spurious));
    }

    /** The first waiter of the queue, if any, is given the place. */
    method PopWaiter(head: nat) returns (w: Option<Waiter>)
      modifies this`futex, this`recv, this`accepted
      ensures if Front(old(futex)) == [] then
                w.None? && recv == Return && futex == old(futex) && accepted == old(accepted)
              else
                && w == Some(old(futex).queues[0][0]) && recv == Backfill(head, w.value)
                && futex == Pop(old(futex), 0, 1) && accepted == old(accepted) + [w.value.task]
    {
      w, recv := None, Return;
      if Front(futex) != [] {
        w := Some(futex.queues[0][0]);
        futex, recv, accepted := Pop(futex, 0, 1), Backfill(head, w.value), accepted + [w.value.task];
      }
    }

    /** The blocked sender's message, which is still there, moves to the bucket. */
    method BackfillAndWake(head: nat, w: Waiter)
      requires Valid() && recv == Backfill(head, w)
      modifies this, buckets
      ensures Later() && received == old(received) && recv == Return
    {
      hide Run, Init, Extends, Step, StepRecv;
      ExtendsOrder<(Actor, Choice)>();
      SendersAct();
      MoveMessage(head, w);
      SendersAct();
      SwapSlot(w);
    }

    method MoveMessage(head: nat, w: Waiter)
      requires Valid() && recv == Backfill(head, w)
      modifies this, buckets
      ensures Later() && received == old(received) && recv == Wake(w)
    {
      hide Run, Init, Extends;
      Safe(Choice(Proceed, false));
      assert head < buckets.Length && w.task < |senders| && senders[w.task].full;
      ghost var was := Abs();
      buckets[head] := Bucket(true, Some(w.task));
      senders, recv := senders[w.task := senders[w.task].(full := false)], Wake(w);
      Record(was, Receiver, Choice(Proceed, false));
    }

    /** Swaps the waiter's slot, which asserts that it is waiting. */
    method SwapSlot(w: Waiter)
      requires Valid() && recv == Wake(w)
      modifies this
      ensures Later() && received == old(received) && recv == Return
    {
      hide Run, Init, Extends;
      Safe(Choice(Proceed, false));
      assert w.task < |senders| && Woken(senders[w.task].pc).Some?;
      ghost var was := Abs();
      senders, recv := senders[w.task := senders[w.task].(pc := Woken(senders[w.task].pc).value)], Return;
      Record(was, Receiver, Choice(Proceed, false));
    }

    /** Gives back borrow and guard. */
    method Finish()
      requires Valid() && recv == Return
      modifies this, buckets
      ensures Later() && received == old(received) && recv == Rest
    {
      hide Run, Init, Extends;
      ExtendsOrder<(Actor, Choice)>();
      SendersAct();
      ghost var was := Abs();
      futex, recv := DropBorrow(futex), Leave;
      Record(was, Receiver, Choice(Proceed, false));
      SendersAct();
      was := Abs();
      futex, recv := Unshare(futex), Rest;
      Record(was, Receiver, Choice(Proceed, false));
    }
  }

  predicate AtFill(pc: Pc, slot: nat)
  {
    pc.SendFill? && pc.slot == slot
  }
}
