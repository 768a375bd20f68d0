/** The ring invariant of the bounded channel, kept by every step of every sender and of
  the receiver.
 */
module MpscProof {
  import opened Counting
  import opened Futex
  import opened FutexLaws
  import opened Mpsc
  import opened Options
  import opened Places

  // ----- positions and buckets -----

  function At(buckets: seq<Bucket>, p: nat): Bucket
    requires |buckets| > 0
  {
    buckets[p % |buckets|]
  }

  // ----- parts in the futex -----

  function PartOf(x: Sender): Part
  {
    match x.pc
    case Parked(woken) => OUTSIDE.(waits := Asleep(woken))
    case CancelWait(woken) => OUTSIDE.(waits := Asleep(woken))
    case CancelLocked(woken) => OUTSIDE.(waits := Asleep(woken), exclusive := 1)
    case CancelFlip(woken, snap) => OUTSIDE.(waits := Asleep(woken), exclusive := 1, away := snap.inbox.None?)
    case _ => OUTSIDE
  }

  function Asleep(woken: bool): Option<nat>
  {
    if woken then None else Some(0)
  }

  function RecvPart(recv: Recv): Part
  {
    match recv
    case TakeQueue(_) => OUTSIDE.(guard := 1)
    case PopFirst(_) => OUTSIDE.(guard := 1, borrow := 1)
    case Advance(_, _, w) => OUTSIDE.(guard := 1, borrow := 1, hand := [w])
    case Decide(_, _) => OUTSIDE.(guard := 1, borrow := 1)
    case Backfill(_, w) => OUTSIDE.(guard := 1, borrow := 1, hand := [w])
    case Wake(w) => OUTSIDE.(guard := 1, borrow := 1, hand := [w])
    case Return => OUTSIDE.(guard := 1, borrow := 1)
    case Leave => OUTSIDE.(guard := 1)
    case _ => OUTSIDE
  }

  /** The receiver's part comes after those of all senders. */
  function Parts(senders: seq<Sender>, recv: Recv): seq<Part>
  {
    Map(senders, PartOf) + [RecvPart(recv)]
  }

  lemma {:induction false} SenderParts(senders: seq<Sender>, recv: Recv, t: nat, x: Sender)
    requires t < |senders|
    ensures Parts(senders[t := x], recv) == Parts(senders, recv)[t := PartOf(x)]
    ensures Parts(senders, recv)[t] == PartOf(senders[t])
  {
    MapUpdate(senders, PartOf, t, x);
  }

  lemma {:induction false} RecvParts(senders: seq<Sender>, recv: Recv, recv': Recv)
    ensures Parts(senders, recv') == Parts(senders, recv)[|senders| := RecvPart(recv')]
    ensures Parts(senders, recv)[|senders|] == RecvPart(recv)
  {
  }

  // ----- the invariant -----

  ghost predicate Law(f: Futex, senders: seq<Sender>, recv: Recv)
  {
    Lawful(f, Parts(senders, recv)) && |f.queues| == 1
  }

  /** A message has been taken out and its place not been given away yet. */
  predicate Critical(recv: Recv)
  {
    recv.TakeGuard? || recv.TakeQueue? || recv.PopFirst? || recv.Advance? || recv.Decide?
  }

  predicate Counts(cap: nat, word: Word, recvHead: nat, accepted: nat, received: nat, recv: Recv)
  {
    && cap > 0 && word.size <= cap && received <= accepted
    && word.size + received == accepted + (if Critical(recv) then 1 else 0)
    && word.writeHead == accepted % cap && recvHead == received % cap
  }

  /** The message at position p is on its way to its bucket. */
  predicate Coming(cap: nat, accepted: seq<nat>, received: nat, senders: seq<Sender>, recv: Recv, p: nat)
    requires p < |accepted| && cap > 0
  {
    var t := accepted[p];
    || (t < |senders| && senders[t].pc == SendFill(p % cap, p))
    || (recv.Backfill? && p + 1 == received + cap && recv.w.task == t)
  }

  predicate Placed(buckets: seq<Bucket>, accepted: seq<nat>, received: nat, senders: seq<Sender>, recv: Recv, p: nat)
    requires p < |accepted| && |buckets| > 0
  {
    if At(buckets, p).filled then At(buckets, p).data == Some(accepted[p])
    else Coming(|buckets|, accepted, received, senders, recv, p)
  }

  /** Every accepted message not received yet is in its bucket or on its way there; all
    other buckets are free. */
  predicate Ring(buckets: seq<Bucket>, accepted: seq<nat>, received: nat, senders: seq<Sender>, recv: Recv)
  {
    && |buckets| > 0
    && (forall p :: received <= p < |accepted| ==> Placed(buckets, accepted, received, senders, recv, p))
    && (forall p :: |accepted| <= p < received + |buckets| ==> !At(buckets, p).filled)
  }

  /** The sender's message has a place already, though the sender sleeps. */
  predicate Given(recv: Recv, t: nat)
  {
    (recv.Backfill? || recv.Wake?) && recv.w.task == t
  }

  predicate Fresh(recv: Recv, t: nat, pc: Pc)
  {
    || pc.Ready? || pc.SendTry? || pc == CancelCheck(false)
    || (PartOf(Sender(pc, true)).waits.Some? && !Given(recv, t))
  }

  predicate WokenPc(pc: Pc)
  {
    (pc.Parked? || pc.CancelWait? || pc.CancelLocked? || pc.CancelFlip? || pc.CancelCheck?) && pc.woken
  }

  predicate SenderOk(buckets: seq<Bucket>, accepted: seq<nat>, received: nat, recv: Recv, t: nat, x: Sender)
    requires |buckets| > 0
  {
    && (Fresh(recv, t, x.pc) ==> x.full && t !in accepted)
    && (WokenPc(x.pc) ==> !x.full)
    && (recv.Backfill? && recv.w.task == t ==> x.full)
    && (recv.Wake? && recv.w.task == t ==> !x.full)
    && (x.pc.SendFill? ==>
          && x.full && received <= x.pc.pos < |accepted| && accepted[x.pc.pos] == t
          && x.pc.slot == x.pc.pos % |buckets| && !At(buckets, x.pc.pos).filled)
    && !x.pc.Lost?
  }

  predicate People(buckets: seq<Bucket>, accepted: seq<nat>, received: nat, recv: Recv, senders: seq<Sender>)
  {
    |buckets| > 0 && forall t :: 0 <= t < |senders| ==> SenderOk(buckets, accepted, received, recv, t, senders[t])
  }

  predicate Distinct(accepted: seq<nat>)
  {
    forall p, q :: 0 <= p < q < |accepted| ==> accepted[p] != accepted[q]
  }

  /** Senders are blocked only while the channel is full. */
  predicate Blocked(cap: nat, word: Word, f: Futex, recv: Recv)
  {
    f.inbox != [] || Front(f) != [] || recv.Advance? ==> word.size == cap
  }

  predicate RecvOk(buckets: seq<Bucket>, f: Futex, accepted: seq<nat>, received: nat, recv: Recv)
    requires |buckets| > 0
  {
    match recv
    case Consume => At(buckets, received).filled
    case Unregister => At(buckets, received).filled
    case TakeGuard(slot) => received > 0 && slot == (received - 1) % |buckets|
    case TakeQueue(slot) => received > 0 && slot == (received - 1) % |buckets|
    case PopFirst(slot) => received > 0 && slot == (received - 1) % |buckets|
    case Advance(slot, snap, w) =>
      received > 0 && slot == (received - 1) % |buckets| && snap.word.size == |buckets|
    case Decide(slot, snap) =>
      && received > 0 && slot == (received - 1) % |buckets| && Front(f) == []
      && snap.word.size > 0 && (snap.inbox.Some? ==> snap.word.size == |buckets|)
    case Backfill(slot, w) =>
      && received > 0 && slot == (received - 1) % |buckets|
      && |accepted| == received + |buckets| && accepted[|accepted| - 1] == w.task
    case Crashed => false
    case _ => true
  }

  predicate Ringing(senders: seq<Sender>, poll: nat)
  {
    exists t :: 0 <= t < |senders| && senders[t].pc == SendRing(poll)
  }

  /** A registered receiver is woken once its bucket is filled. */
  predicate Bell(buckets: seq<Bucket>, accepted: seq<nat>, received: nat, recv: Recv, senders: seq<Sender>,
                 slot: Option<nat>, rung: set<nat>)
    requires |buckets| > 0
  {
    && (recv.Recheck? || recv.Pending? ==>
          slot == Some(recv.poll) || recv.poll in rung || Ringing(senders, recv.poll))
    && (recv.Pending? && slot.Some? && At(buckets, received).filled ==>
          received < |accepted| && accepted[received] < |senders| && senders[accepted[received]].pc.SendSwap?)
  }

  ghost predicate Inv(s: State)
  {
    var r := |s.received|;
    && Law(s.futex, s.senders, s.recv)
    && Counts(|s.buckets|, s.word, s.recvHead, |s.accepted|, r, s.recv)
    && Ring(s.buckets, s.accepted, r, s.senders, s.recv)
    && People(s.buckets, s.accepted, r, s.recv, s.senders)
    && Distinct(s.accepted)
    && Blocked(|s.buckets|, s.word, s.futex, s.recv)
    && RecvOk(s.buckets, s.futex, s.accepted, r, s.recv)
    && Bell(s.buckets, s.accepted, r, s.recv, s.senders, s.slot, s.rung)
    && s.received == s.accepted[..r]
  }

  lemma {:induction false} SenderAt(s: State, t: nat)
    requires Inv(s) && t < |s.senders|
    ensures |s.buckets| > 0 && SenderOk(s.buckets, s.accepted, |s.received|, s.recv, t, s.senders[t])
  {
  }

  lemma {:induction false} InvParts(s: State)
    requires Inv(s)
    ensures Law(s.futex, s.senders, s.recv)
    ensures Counts(|s.buckets|, s.word, s.recvHead, |s.accepted|, |s.received|, s.recv)
    ensures Blocked(|s.buckets|, s.word, s.futex, s.recv)
    ensures RecvOk(s.buckets, s.futex, s.accepted, |s.received|, s.recv)
  {
  }

  // ----- steps of a sender that touch neither word nor buckets -----

  /** Nobody waits for what the sender's program point says of it. */
  predicate Unwatched(x: Sender, y: Sender)
  {
    && !x.pc.SendFill? && !y.pc.SendFill? && !x.pc.SendSwap? && !x.pc.SendRing?
  }

  lemma {:induction false} TurnRing(buckets: seq<Bucket>, accepted: seq<nat>, received: nat, recv: Recv,
                                    senders: seq<Sender>, t: nat, x: Sender)
    requires Ring(buckets, accepted, received, senders, recv) && t < |senders| && !senders[t].pc.SendFill?
    ensures Ring(buckets, accepted, received, senders[t := x], recv)
  {
    var senders' := senders[t := x];
    forall p | received <= p < |accepted|
      ensures Placed(buckets, accepted, received, senders', recv, p)
    {
      assert Placed(buckets, accepted, received, senders, recv, p);
    }
  }

  lemma {:induction false} TurnPeople(buckets: seq<Bucket>, accepted: seq<nat>, received: nat, recv: Recv,
                                      senders: seq<Sender>, t: nat, x: Sender)
    requires People(buckets, accepted, received, recv, senders) && t < |senders|
    requires SenderOk(buckets, accepted, received, recv, t, x)
    ensures People(buckets, accepted, received, recv, senders[t := x])
  {
  }

  lemma {:induction false} TurnBell(buckets: seq<Bucket>, accepted: seq<nat>, received: nat, recv: Recv,
                                    senders: seq<Sender>, slot: Option<nat>, rung: set<nat>, t: nat, x: Sender)
    requires |buckets| > 0 && Bell(buckets, accepted, received, recv, senders, slot, rung) && t < |senders|
    requires !senders[t].pc.SendSwap? && !senders[t].pc.SendRing?
    ensures Bell(buckets, accepted, received, recv, senders[t := x], slot, rung)
  {
    if (recv.Recheck? || recv.Pending?) && Ringing(senders, recv.poll) {
      var k :| 0 <= k < |senders| && senders[k].pc == SendRing(recv.poll);
      assert senders[t := x][k].pc == SendRing(recv.poll);
    }
  }

  /** A sender turns to another program point, taking or releasing the exclusive guard. */
  lemma {:induction false} TurnKeeps(s: State, t: nat, f: Futex, x: Sender)
    requires Inv(s) && t < |s.senders| && Unwatched(s.senders[t], x)
    requires f.inbox == s.futex.inbox && f.queues == s.futex.queues
    requires Lawful(f, Parts(s.senders, s.recv)[t := PartOf(x)])
    requires SenderOk(s.buckets, s.accepted, |s.received|, s.recv, t, x)
    ensures Inv(s.(senders := s.senders[t := x], futex := f))
  {
    assert |s.buckets| > 0;
    hide Lawful, Counts, Ring, People, Distinct, Bell, SenderOk;
    SenderParts(s.senders, s.recv, t, x);
    TurnRing(s.buckets, s.accepted, |s.received|, s.recv, s.senders, t, x);
    TurnPeople(s.buckets, s.accepted, |s.received|, s.recv, s.senders, t, x);
    TurnBell(s.buckets, s.accepted, |s.received|, s.recv, s.senders, s.slot, s.rung, t, x);
  }

  lemma {:induction false} StayKeeps(s: State, t: nat, x: Sender)
    requires Inv(s) && t < |s.senders| && Unwatched(s.senders[t], x)
    requires PartOf(x) == PartOf(s.senders[t]).(away := PartOf(x).away)
    requires PartOf(x).away ==> PartOf(s.senders[t]).away || s.futex.inbox == []
    requires SenderOk(s.buckets, s.accepted, |s.received|, s.recv, t, x)
    ensures Inv(s.(senders := s.senders[t := x]))
  {
    hide Inv, Lawful, SenderOk, PartOf, RecvOk, Counts, Blocked;
    InvParts(s);
    SenderParts(s.senders, s.recv, t, x);
    StayLaw(s.futex, Parts(s.senders, s.recv), t, PartOf(x));
    TurnKeeps(s, t, s.futex, x);
  }

  /** The moves of a sender that nobody can see. */
  predicate Moves(pc: Pc, next: Pc)
  {
    || (pc.Ready? && next.SendTry?)
    || (pc.SendTry? && next.SendTry?)
    || (pc.Parked? && next == CancelWait(pc.woken))
    || (pc == Parked(true) && next.Sent?)
    || ((pc.CancelLocked? || pc.CancelFlip?) && next.CancelFlip? && next.woken == pc.woken)
    || (pc.CancelCheck? && next.Dropped?)
  }

  lemma {:induction false} MoveFacts(buckets: seq<Bucket>, accepted: seq<nat>, received: nat, recv: Recv, t: nat,
                                     x: Sender, next: Pc)
    requires |buckets| > 0 && SenderOk(buckets, accepted, received, recv, t, x) && Moves(x.pc, next)
    ensures Unwatched(x, x.(pc := next)) && SenderOk(buckets, accepted, received, recv, t, x.(pc := next))
    ensures PartOf(x.(pc := next)) == PartOf(x).(away := PartOf(x.(pc := next)).away)
    ensures PartOf(x.(pc := next)).away ==> next.CancelFlip? && next.snap.inbox.None?
  {
  }

  lemma {:induction false} MoveKeeps(s: State, t: nat, next: Pc)
    requires Inv(s) && t < |s.senders| && Moves(s.senders[t].pc, next)
    requires next.CancelFlip? ==> next.snap == Current(s)
    ensures Inv(Goto(s, t, next))
  {
    hide Inv, SenderOk, PartOf, Moves, Unwatched;
    SenderAt(s, t);
    MoveFacts(s.buckets, s.accepted, |s.received|, s.recv, t, s.senders[t], next);
    StayKeeps(s, t, s.senders[t].(pc := next));
  }

  // ----- a sender is given a place -----

  lemma {:induction false} AcceptRing(buckets: seq<Bucket>, accepted: seq<nat>, received: nat, recv: Recv,
                                      senders: seq<Sender>, t: nat, x: Sender)
    requires Ring(buckets, accepted, received, senders, recv) && t < |senders| && !senders[t].pc.SendFill?
    requires |accepted| < received + |buckets|
    requires x.pc == SendFill(|accepted| % |buckets|, |accepted|)
    ensures Ring(buckets, accepted + [t], received, senders[t := x], recv)
  {
    var accepted', senders' := accepted + [t], senders[t := x];
    forall p | received <= p < |accepted'|
      ensures Placed(buckets, accepted', received, senders', recv, p)
    {
      if p < |accepted| {
        assert Placed(buckets, accepted, received, senders, recv, p);
      } else {
        assert !At(buckets, p).filled;
      }
    }
  }

  lemma {:induction false} AcceptPeople(buckets: seq<Bucket>, accepted: seq<nat>, received: nat, recv: Recv,
                                        senders: seq<Sender>, t: nat, x: Sender)
    requires People(buckets, accepted, received, recv, senders) && t < |senders| && senders[t].pc.SendTry?
    requires received <= |accepted| && !At(buckets, |accepted|).filled
    requires x == senders[t].(pc := SendFill(|accepted| % |buckets|, |accepted|))
    ensures People(buckets, accepted + [t], received, recv, senders[t := x])
  {
    assert SenderOk(buckets, accepted, received, recv, t, senders[t]);
    forall u | 0 <= u < |senders| && u != t
      ensures SenderOk(buckets, accepted + [t], received, recv, u, senders[u])
    {
      assert SenderOk(buckets, accepted, received, recv, u, senders[u]);
    }
  }

  lemma {:induction false} AcceptDistinct(accepted: seq<nat>, t: nat)
    requires Distinct(accepted) && t !in accepted
    ensures Distinct(accepted + [t])
  {
  }

  lemma {:induction false} AcceptBell(buckets: seq<Bucket>, accepted: seq<nat>, received: nat, recv: Recv,
                                      senders: seq<Sender>, slot: Option<nat>, rung: set<nat>, t: nat)
    requires |buckets| > 0 && Bell(buckets, accepted, received, recv, senders, slot, rung)
    ensures Bell(buckets, accepted + [t], received, recv, senders, slot, rung)
  {
  }

  lemma {:induction false} FreePlace(s: State)
    requires Inv(s) && s.word.size < |s.buckets|
    ensures |s.accepted| < |s.received| + |s.buckets| && !At(s.buckets, |s.accepted|).filled
    ensures s.futex.inbox == [] && Front(s.futex) == [] && !s.recv.Advance? && !s.recv.Backfill?
    ensures !(s.recv.Decide? && Swaps(s, s.recv.snap, Choice(Proceed, false)) && s.recv.snap.inbox.Some?)
  {
  }

  lemma {:induction false} AcceptRecv(s: State, t: nat)
    requires Inv(s) && s.word.size < |s.buckets|
    ensures RecvOk(s.buckets, s.futex, s.accepted + [t], |s.received|, s.recv)
  {
    FreePlace(s);
  }

  lemma {:induction false} TryFresh(s: State, t: nat)
    requires Inv(s) && t < |s.senders| && s.senders[t].pc.SendTry?
    ensures t !in s.accepted && |s.received| <= |s.accepted|
  {
    SenderAt(s, t);
  }

  lemma {:induction false} AcceptLaw(f: Futex, senders: seq<Sender>, recv: Recv, t: nat, x: Sender)
    requires Law(f, senders, recv) && t < |senders| && senders[t].pc.SendTry? && x.pc.SendFill?
    ensures Law(f, senders[t := x], recv)
  {
    hide Lawful;
    SenderParts(senders, recv, t, x);
    StayLaw(f, Parts(senders, recv), t, PartOf(x));
  }

  lemma {:induction false} AcceptKeeps(s: State, t: nat, snap: Snap<Word>)
    requires Inv(s) && t < |s.senders| && s.senders[t].pc == SendTry(snap)
    requires snap == Current(s) && snap.word.size < |s.buckets|
    ensures Inv(Goto(s, t, SendFill(snap.word.writeHead, |s.accepted|)).(
              word := Word(Next(s, snap.word.writeHead), snap.word.size + 1), accepted := s.accepted + [t]))
  {
    hide Law, Ring, People, Distinct, Bell, RecvOk, SenderOk;
    TryFresh(s, t);
    FreePlace(s);
    AcceptRecv(s, t);
    NextPlace(|s.accepted|, |s.buckets|);
    var x := s.senders[t].(pc := SendFill(snap.word.writeHead, |s.accepted|));
    AcceptLaw(s.futex, s.senders, s.recv, t, x);
    AcceptRing(s.buckets, s.accepted, |s.received|, s.recv, s.senders, t, x);
    AcceptPeople(s.buckets, s.accepted, |s.received|, s.recv, s.senders, t, x);
    AcceptDistinct(s.accepted, t);
    TurnBell(s.buckets, s.accepted, |s.received|, s.recv, s.senders, s.slot, s.rung, t, x);
    AcceptBell(s.buckets, s.accepted, |s.received|, s.recv, s.senders[t := x], s.slot, s.rung, t);
    assert (s.accepted + [t])[..|s.received|] == s.accepted[..|s.received|];
  }

  // ----- a sender blocks -----

  lemma {:induction false} ParkPeople(buckets: seq<Bucket>, accepted: seq<nat>, received: nat, recv: Recv, t: nat,
          x: Sender)
    requires |buckets| > 0 && SenderOk(buckets, accepted, received, recv, t, x) && x.pc.SendTry?
    ensures SenderOk(buckets, accepted, received, recv, t, x.(pc := Parked(false)))
  {
  }

  lemma {:induction false} ParkKeeps(s: State, t: nat, snap: Snap<Word>)
    requires Inv(s) && t < |s.senders| && s.senders[t].pc == SendTry(snap)
    requires snap == Current(s) && snap.word.size >= |s.buckets|
    ensures Inv(Goto(s, t, Parked(false)).(futex := Push(s.futex, Waiter(t, 0))))
  {
    hide Lawful, Ring, People, Distinct, Bell, SenderOk;
    SenderAt(s, t);
    var x := s.senders[t].(pc := Parked(false));
    ParkPeople(s.buckets, s.accepted, |s.received|, s.recv, t, s.senders[t]);
    SenderParts(s.senders, s.recv, t, x);
    ParkLaw(s.futex, Parts(s.senders, s.recv), t, 0, PartOf(x));
    TurnRing(s.buckets, s.accepted, |s.received|, s.recv, s.senders, t, x);
    TurnPeople(s.buckets, s.accepted, |s.received|, s.recv, s.senders, t, x);
    TurnBell(s.buckets, s.accepted, |s.received|, s.recv, s.senders, s.slot, s.rung, t, x);
  }

  lemma {:induction false} SendTryKeeps(s: State, t: nat, c: Choice, snap: Snap<Word>)
    requires Inv(s) && t < |s.senders| && s.senders[t].pc == SendTry(snap)
    ensures Inv(StepSendTry(s, t, c, snap))
  {
    hide Inv;
    if !Swaps(s, snap, c) {
      MoveKeeps(s, t, SendTry(Current(s)));
    } else if snap.word.size < |s.buckets| {
      AcceptKeeps(s, t, snap);
    } else {
      ParkKeeps(s, t, snap);
    }
  }

  // ----- filling a bucket -----

  lemma {:induction false} FillAt(buckets: seq<Bucket>, pos: nat, b: Bucket, received: nat, p: nat)
    requires |buckets| > 0 && received <= pos < received + |buckets| && received <= p < received + |buckets|
    ensures At(buckets[pos % |buckets| := b], p) == if p == pos then b else At(buckets, p)
  {
    if p % |buckets| == pos % |buckets| {
      if p <= pos {
        SamePlace(p, pos, |buckets|);
      } else {
        SamePlace(pos, p, |buckets|);
      }
    }
  }

  lemma {:induction false} FillRing(buckets: seq<Bucket>, accepted: seq<nat>, received: nat, recv: Recv, recv': Recv,
                                    senders: seq<Sender>, t: nat, x: Sender, pos: nat)
    requires Ring(buckets, accepted, received, senders, recv) && t < |senders|
    requires received <= pos < |accepted| <= received + |buckets| && accepted[pos] == t
    requires senders[t].pc.SendFill? ==> senders[t].pc.pos == pos
    requires recv' == recv || (recv.Backfill? && pos + 1 == received + |buckets|)
    ensures Ring(buckets[pos % |buckets| := Bucket(true, Some(t))], accepted, received, senders[t := x], recv')
  {
    var b := Bucket(true, Some(t));
    var buckets', senders' := buckets[pos % |buckets| := b], senders[t := x];
    forall p | received <= p < |accepted|
      ensures Placed(buckets', accepted, received, senders', recv', p)
    {
      assert Placed(buckets, accepted, received, senders, recv, p);
      FillAt(buckets, pos, b, received, p);
    }
    forall p | |accepted| <= p < received + |buckets|
      ensures !At(buckets', p).filled
    {
      FillAt(buckets, pos, b, received, p);
    }
  }

  lemma {:induction false} FillPeople(buckets: seq<Bucket>, accepted: seq<nat>, received: nat, recv: Recv,
                                      senders: seq<Sender>, t: nat, pos: nat)
    requires People(buckets, accepted, received, recv, senders) && t < |senders|
    requires received <= pos < |accepted| <= received + |buckets| && accepted[pos] == t
    requires senders[t].pc == SendFill(pos % |buckets|, pos)
    requires Distinct(accepted) && !Given(recv, t)
    ensures People(buckets[pos % |buckets| := Bucket(true, Some(t))], accepted, received, recv,
                   senders[t := Sender(SendSwap, false)])
  {
    var b := Bucket(true, Some(t));
    var buckets', senders' := buckets[pos % |buckets| := b], senders[t := Sender(SendSwap, false)];
    forall u | 0 <= u < |senders|
      ensures SenderOk(buckets', accepted, received, recv, u, senders'[u])
    {
      assert SenderOk(buckets, accepted, received, recv, u, senders[u]);
      if u != t && senders[u].pc.SendFill? {
        FillAt(buckets, pos, b, received, senders[u].pc.pos);
      }
    }
  }

  lemma {:induction false} FillBell(buckets: seq<Bucket>, accepted: seq<nat>, received: nat, recv: Recv,
                                    senders: seq<Sender>, slot: Option<nat>, rung: set<nat>, t: nat, pos: nat)
    requires |buckets| > 0 && Bell(buckets, accepted, received, recv, senders, slot, rung) && t < |senders|
    requires senders[t].pc.SendFill?
    requires received <= pos < |accepted| <= received + |buckets| && accepted[pos] == t
    ensures Bell(buckets[pos % |buckets| := Bucket(true, Some(t))], accepted, received, recv,
                 senders[t := Sender(SendSwap, false)], slot, rung)
  {
    var b := Bucket(true, Some(t));
    FillAt(buckets, pos, b, received, received);
    TurnBell(buckets, accepted, received, recv, senders, slot, rung, t, Sender(SendSwap, false));
  }

  /** A sender that still has to fill its bucket is not the one the receiver serves. */
  lemma {:induction false} FillerNotGiven(s: State, t: nat)
    requires Inv(s) && t < |s.senders| && s.senders[t].pc.SendFill?
    ensures !Given(s.recv, t)
  {
    if Given(s.recv, t) {
      SenderParts(s.senders, s.recv, t, s.senders[t]);
      RecvParts(s.senders, s.recv, s.recv);
      assert RecvPart(s.recv).hand[0] == s.recv.w;
      HandSleeps(s.futex, Parts(s.senders, s.recv), |s.senders|);
    }
  }

  lemma {:induction false} FillRecv(s: State, t: nat, pos: nat)
    requires Inv(s) && t < |s.senders| && |s.received| <= pos < |s.accepted|
    requires |s.accepted| <= |s.received| + |s.buckets|
    ensures RecvOk(s.buckets[pos % |s.buckets| := Bucket(true, Some(t))], s.futex, s.accepted, |s.received|, s.recv)
  {
    FillAt(s.buckets, pos, Bucket(true, Some(t)), |s.received|, |s.received|);
  }

  lemma {:induction false} SendFillKeeps(s: State, t: nat, slot: nat, pos: nat)
    requires Inv(s) && t < |s.senders| && s.senders[t].pc == SendFill(slot, pos)
    ensures Inv(StepSendFill(s, t, slot))
  {
    hide Lawful, Ring, People, Distinct, Bell, RecvOk;
    SenderAt(s, t);
    FillerNotGiven(s, t);
    FillRecv(s, t, pos);
    var x := Sender(SendSwap, false);
    SenderParts(s.senders, s.recv, t, x);
    StayLaw(s.futex, Parts(s.senders, s.recv), t, PartOf(x));
    FillRing(s.buckets, s.accepted, |s.received|, s.recv, s.recv, s.senders, t, x, pos);
    FillPeople(s.buckets, s.accepted, |s.received|, s.recv, s.senders, t, pos);
    FillBell(s.buckets, s.accepted, |s.received|, s.recv, s.senders, s.slot, s.rung, t, pos);
  }

  // ----- ringing the bell -----

  lemma {:induction false} SwapBell(buckets: seq<Bucket>, accepted: seq<nat>, received: nat, recv: Recv,
                                    senders: seq<Sender>, slot: Option<nat>, rung: set<nat>, t: nat, x: Sender)
    requires |buckets| > 0 && Bell(buckets, accepted, received, recv, senders, slot, rung) && t < |senders|
    requires senders[t].pc.SendSwap? && (slot.Some? ==> x.pc == SendRing(slot.value))
    ensures Bell(buckets, accepted, received, recv, senders[t := x], None, rung)
  {
    if recv.Recheck? || recv.Pending? {
      if slot == Some(recv.poll) {
        assert senders[t := x][t].pc == SendRing(recv.poll);
      } else if Ringing(senders, recv.poll) {
        var k :| 0 <= k < |senders| && senders[k].pc == SendRing(recv.poll);
        assert senders[t := x][k].pc == SendRing(recv.poll);
      }
    }
  }

  lemma {:induction false} RingBell(buckets: seq<Bucket>, accepted: seq<nat>, received: nat, recv: Recv,
                                    senders: seq<Sender>, slot: Option<nat>, rung: set<nat>, t: nat, x: Sender)
    requires |buckets| > 0 && Bell(buckets, accepted, received, recv, senders, slot, rung) && t < |senders|
    requires senders[t].pc.SendRing?
    ensures Bell(buckets, accepted, received, recv, senders[t := x], slot, rung + {senders[t].pc.poll})
  {
    if (recv.Recheck? || recv.Pending?) && Ringing(senders, recv.poll) {
      var k :| 0 <= k < |senders| && senders[k].pc == SendRing(recv.poll);
      assert k != t ==> senders[t := x][k].pc == SendRing(recv.poll);
    }
  }

  lemma {:induction false} SignalLaw(s: State, t: nat, x: Sender)
    requires Inv(s) && t < |s.senders| && (s.senders[t].pc.SendSwap? || s.senders[t].pc.SendRing?)
    requires (x.pc.SendRing? || x.pc.Sent?) && x.full == s.senders[t].full
    ensures Law(s.futex, s.senders[t := x], s.recv)
    ensures Ring(s.buckets, s.accepted, |s.received|, s.senders[t := x], s.recv)
    ensures People(s.buckets, s.accepted, |s.received|, s.recv, s.senders[t := x])
  {
    hide Lawful, Ring, People, Distinct, Bell, RecvOk;
    SenderAt(s, t);
    SenderParts(s.senders, s.recv, t, x);
    StayLaw(s.futex, Parts(s.senders, s.recv), t, PartOf(x));
    TurnRing(s.buckets, s.accepted, |s.received|, s.recv, s.senders, t, x);
    TurnPeople(s.buckets, s.accepted, |s.received|, s.recv, s.senders, t, x);
  }

  lemma {:induction false} SendSwapKeeps(s: State, t: nat)
    requires Inv(s) && t < |s.senders| && s.senders[t].pc == SendSwap
    ensures Inv(StepSendSwap(s, t))
  {
    var x := s.senders[t].(pc := if s.slot.Some? then SendRing(s.slot.value) else Sent);
    SignalLaw(s, t, x);
    hide Law, Counts, Ring, People, Distinct, Bell, RecvOk;
    SwapBell(s.buckets, s.accepted, |s.received|, s.recv, s.senders, s.slot, s.rung, t, x);
  }

  lemma {:induction false} SendRingKeeps(s: State, t: nat, poll: nat)
    requires Inv(s) && t < |s.senders| && s.senders[t].pc == SendRing(poll)
    ensures Inv(Goto(s, t, Sent).(rung := s.rung + {poll}))
  {
    var x := s.senders[t].(pc := Sent);
    SignalLaw(s, t, x);
    hide Law, Counts, Ring, People, Distinct, Bell, RecvOk;
    RingBell(s.buckets, s.accepted, |s.received|, s.recv, s.senders, s.slot, s.rung, t, x);
  }

  // ----- a blocked sender gives up -----

  lemma {:induction false} ExcludeFacts(buckets: seq<Bucket>, accepted: seq<nat>, received: nat, recv: Recv, t: nat,
          x: Sender)
    requires |buckets| > 0 && SenderOk(buckets, accepted, received, recv, t, x) && x.pc.CancelWait?
    ensures var y := x.(pc := CancelLocked(x.pc.woken));
            && SenderOk(buckets, accepted, received, recv, t, y) && Unwatched(x, y)
            && PartOf(x).exclusive == 0 && PartOf(y) == PartOf(x).(exclusive := 1)
  {
  }

  lemma {:induction false} ExcludeKeeps(s: State, t: nat, woken: bool)
    requires Inv(s) && t < |s.senders| && s.senders[t].pc == CancelWait(woken)
    requires !s.futex.exclusive && s.futex.guards == 0
    ensures Inv(Goto(s, t, CancelLocked(woken)).(futex := Exclude(s.futex)))
  {
    hide Inv, Lawful, RecvOk, Counts, Blocked, SenderOk, PartOf, Unwatched;
    SenderAt(s, t);
    InvParts(s);
    ExcludeFacts(s.buckets, s.accepted, |s.received|, s.recv, t, s.senders[t]);
    var x := s.senders[t].(pc := CancelLocked(woken));
    SenderParts(s.senders, s.recv, t, x);
    ExcludeLaw(s.futex, Parts(s.senders, s.recv), t);
    TurnKeeps(s, t, Exclude(s.futex), x);
  }

  predicate Flipped(was: Futex, f: Futex, snap: Snap<Word>)
  {
    f == Enqueue(was) || (f == was && snap.inbox.None?)
  }

  lemma {:induction false} UnlinkLawful(s: State, t: nat, f: Futex, woken: bool, snap: Snap<Word>)
    requires Inv(s) && t < |s.senders| && s.senders[t].pc == CancelFlip(woken, snap) && Flipped(s.futex, f, snap)
    ensures Law(Include(Unlink(f, Waiter(t, 0))), Goto(s, t, CancelCheck(woken)).senders, s.recv)
  {
    hide Inv, Lawful, RecvOk, Counts, Blocked, PartOf;
    InvParts(s);
    var x := s.senders[t].(pc := CancelCheck(woken));
    SenderParts(s.senders, s.recv, t, x);
    UnlinkPart(s.senders[t], x);
    EnqueueLaw(s.futex, Parts(s.senders, s.recv));
    UnlinkLaw(f, Include(Unlink(f, Waiter(t, 0))), Parts(s.senders, s.recv), t, 0, PartOf(x));
  }

  lemma {:induction false} UnlinkPart(x: Sender, y: Sender)
    requires x.pc.CancelFlip? && y == x.(pc := CancelCheck(x.pc.woken))
    ensures PartOf(x).exclusive == 1 && PartOf(x).away == x.pc.snap.inbox.None?
    ensures PartOf(x).waits == None || PartOf(x).waits == Some(0)
    ensures PartOf(y) == PartOf(x).(waits := None, exclusive := 0, away := false)
  {
  }

  /** Nobody serves senders while one of them holds the futex to give up. */
  lemma {:induction false} ReceiverAway(s: State, t: nat)
    requires Inv(s) && t < |s.senders| && s.senders[t].pc.CancelFlip?
    ensures RecvPart(s.recv).guard == 0
  {
    SenderParts(s.senders, s.recv, t, s.senders[t]);
    RecvParts(s.senders, s.recv, s.recv);
    ExclusiveAlone(s.futex, Parts(s.senders, s.recv), t);
  }

  lemma {:induction false} UnlinkFacts(s: State, t: nat, f: Futex, woken: bool, snap: Snap<Word>)
    requires Inv(s) && t < |s.senders| && s.senders[t].pc == CancelFlip(woken, snap) && Flipped(s.futex, f, snap)
    ensures var f' := Include(Unlink(f, Waiter(t, 0)));
            && Blocked(|s.buckets|, s.word, f', s.recv)
            && RecvOk(s.buckets, f', s.accepted, |s.received|, s.recv)
            && SenderOk(s.buckets, s.accepted, |s.received|, s.recv, t, s.senders[t].(pc := CancelCheck(woken)))
  {
    SenderAt(s, t);
    ReceiverAway(s, t);
    var f' := Include(Unlink(f, Waiter(t, 0)));
    if s.futex.inbox == [] && Front(s.futex) == [] {
      assert f'.inbox == [] && Front(f') == [];
    }
  }

  lemma {:induction false} UnlinkKeeps(s: State, t: nat, f: Futex, woken: bool, snap: Snap<Word>)
    requires Inv(s) && t < |s.senders| && s.senders[t].pc == CancelFlip(woken, snap) && Flipped(s.futex, f, snap)
    ensures Inv(Goto(s, t, CancelCheck(woken)).(futex := Include(Unlink(f, Waiter(t, 0)))))
  {
    var x := s.senders[t].(pc := CancelCheck(woken));
    UnlinkLawful(s, t, f, woken, snap);
    UnlinkFacts(s, t, f, woken, snap);
    hide Law, Counts, Ring, People, Distinct, Bell, RecvOk, SenderOk, Blocked, Unlink, Flipped;
    TurnRing(s.buckets, s.accepted, |s.received|, s.recv, s.senders, t, x);
    TurnPeople(s.buckets, s.accepted, |s.received|, s.recv, s.senders, t, x);
    TurnBell(s.buckets, s.accepted, |s.received|, s.recv, s.senders, s.slot, s.rung, t, x);
  }

  lemma {:induction false} CancelFlipKeeps(s: State, t: nat, c: Choice, woken: bool, snap: Snap<Word>)
    requires Inv(s) && t < |s.senders| && s.senders[t].pc == CancelFlip(woken, snap)
    ensures Inv(StepCancelFlip(s, t, c, woken, snap))
  {
    hide Inv, Unlink, Enqueue;
    if snap.inbox.None? {
      UnlinkKeeps(s, t, s.futex, woken, snap);
    } else if Swaps(s, snap, c) {
      UnlinkKeeps(s, t, Enqueue(s.futex), woken, snap);
    } else {
      MoveKeeps(s, t, CancelFlip(woken, Current(s)));
    }
  }

  lemma {:induction false} SendOpenKeeps(s: State, t: nat, c: Choice)
    requires Inv(s) && t < |s.senders|
    requires var pc := s.senders[t].pc;
             pc.Ready? || pc.SendTry? || pc.SendFill? || pc.SendSwap? || pc.SendRing? || pc.Parked?
    ensures Inv(StepSend(s, t, c))
  {
    hide Inv, StepSendTry, StepSendFill, StepSendSwap;
    match s.senders[t].pc
    case Ready => MoveKeeps(s, t, SendTry(Current(s)));
    case SendTry(snap) => SendTryKeeps(s, t, c, snap);
    case SendFill(slot, pos) => SendFillKeeps(s, t, slot, pos);
    case SendSwap => SendSwapKeeps(s, t);
    case SendRing(poll) => SendRingKeeps(s, t, poll);
    case Parked(woken) =>
      if c.op.Cancel? {
        MoveKeeps(s, t, CancelWait(woken));
      } else if woken {
        MoveKeeps(s, t, Sent);
      }
  }

  /** A sender that was woken has nothing left to give. */
  lemma {:induction false} CancelCheckKeeps(s: State, t: nat, woken: bool)
    requires Inv(s) && t < |s.senders| && s.senders[t].pc == CancelCheck(woken)
    ensures !(woken && s.senders[t].full) && Inv(Goto(s, t, Dropped))
  {
    hide Inv;
    SenderAt(s, t);
    MoveKeeps(s, t, Dropped);
  }

  lemma {:induction false} SendCancelKeeps(s: State, t: nat, c: Choice)
    requires Inv(s) && t < |s.senders|
    requires var pc := s.senders[t].pc;
             pc.CancelWait? || pc.CancelLocked? || pc.CancelFlip? || pc.CancelCheck?
    ensures Inv(StepSend(s, t, c))
  {
    hide Inv, StepCancelFlip;
    match s.senders[t].pc
    case CancelWait(woken) =>
      if !s.futex.exclusive && s.futex.guards == 0 {
        ExcludeKeeps(s, t, woken);
      }
    case CancelLocked(woken) => MoveKeeps(s, t, CancelFlip(woken, Current(s)));
    case CancelFlip(woken, snap) => CancelFlipKeeps(s, t, c, woken, snap);
    case CancelCheck(woken) => CancelCheckKeeps(s, t, woken);
  }

  lemma {:induction false} SendKeeps(s: State, t: nat, c: Choice)
    requires Inv(s) && t < |s.senders|
    ensures Inv(StepSend(s, t, c))
  {
    hide Inv;
    var pc := s.senders[t].pc;
    if pc.CancelWait? || pc.CancelLocked? || pc.CancelFlip? || pc.CancelCheck? {
      SendCancelKeeps(s, t, c);
    } else if !pc.Sent? && !pc.Dropped? && !pc.Lost? {
      SendOpenKeeps(s, t, c);
    }
  }

  // ----- steps of the receiver that move no message -----

  predicate Serving(recv: Recv)
  {
    recv.Backfill? || recv.Wake?
  }

  lemma {:induction false} RecvRing(buckets: seq<Bucket>, accepted: seq<nat>, received: nat, senders: seq<Sender>,
                                    recv: Recv, recv': Recv)
    requires Ring(buckets, accepted, received, senders, recv) && !recv.Backfill?
    ensures Ring(buckets, accepted, received, senders, recv')
  {
    forall p | received <= p < |accepted|
      ensures Placed(buckets, accepted, received, senders, recv', p)
    {
      assert Placed(buckets, accepted, received, senders, recv, p);
    }
  }

  lemma {:induction false} RecvPeople(buckets: seq<Bucket>, accepted: seq<nat>, received: nat, senders: seq<Sender>,
                                      recv: Recv, recv': Recv)
    requires People(buckets, accepted, received, recv, senders) && !Serving(recv) && !Serving(recv')
    ensures People(buckets, accepted, received, recv', senders)
  {
    forall t | 0 <= t < |senders|
      ensures SenderOk(buckets, accepted, received, recv', t, senders[t])
    {
      assert SenderOk(buckets, accepted, received, recv, t, senders[t]);
    }
  }

  /** The receiver turns to another program point; the futex changes lawfully. */
  lemma {:induction false} RecvTurns(s: State, f: Futex, recv: Recv, slot: Option<nat>, polls: nat)
    requires Inv(s) && !Serving(s.recv) && !Serving(recv) && Critical(recv) == Critical(s.recv)
    requires Law(f, s.senders, recv) && Blocked(|s.buckets|, s.word, f, recv)
    requires RecvOk(s.buckets, f, s.accepted, |s.received|, recv)
    requires Bell(s.buckets, s.accepted, |s.received|, recv, s.senders, slot, s.rung)
    ensures Inv(s.(futex := f, recv := recv, slot := slot, polls := polls))
  {
    hide Law, Ring, People, Distinct, Bell, Blocked, RecvOk;
    RecvRing(s.buckets, s.accepted, |s.received|, s.senders, s.recv, recv);
    RecvPeople(s.buckets, s.accepted, |s.received|, s.senders, s.recv, recv);
  }

  /** Steps outside the critical section, which touch no futex. */
  predicate Polls(recv: Recv, next: Recv)
  {
    || (recv.Rest? && next.Look?)
    || (recv.Look? && (next.Consume? || next.Register?))
    || (recv.Register? && next.Recheck?)
    || (recv.Recheck? && (next.Unregister? || next == Pending(recv.poll)))
    || (recv.Unregister? && next.Consume?)
    || (recv.Pending? && next.Look?)
  }

  lemma {:induction false} PollLaw(f: Futex, senders: seq<Sender>, recv: Recv, next: Recv)
    requires Law(f, senders, recv) && RecvPart(next) == RecvPart(recv)
    ensures Law(f, senders, next)
  {
    hide Lawful, RecvPart;
    RecvParts(senders, recv, next);
    assert Parts(senders, next) == Parts(senders, recv);
  }

  lemma {:induction false} HeadIsNext(s: State)
    requires Inv(s)
    ensures |s.buckets| > 0 && (Filled(s) <==> At(s.buckets, |s.received|).filled)
  {
    hide Law, Ring, People, Distinct, Bell, Blocked, RecvOk;
  }

  lemma {:induction false} PollBell(buckets: seq<Bucket>, accepted: seq<nat>, received: nat, recv: Recv, next: Recv,
                                    senders: seq<Sender>, slot: Option<nat>, slot': Option<nat>, rung: set<nat>)
    requires |buckets| > 0 && Bell(buckets, accepted, received, recv, senders, slot, rung) && Polls(recv, next)
    requires next.Recheck? ==> slot' == Some(next.poll)
    requires next.Pending? ==> !At(buckets, received).filled && slot' == slot
    ensures Bell(buckets, accepted, received, next, senders, slot', rung)
  {
  }

  lemma {:induction false} PollFacts(buckets: seq<Bucket>, f: Futex, accepted: seq<nat>, received: nat, recv: Recv,
                                     next: Recv, cap: nat, word: Word)
    requires |buckets| > 0 && RecvOk(buckets, f, accepted, received, recv) && Blocked(cap, word, f, recv)
    requires Polls(recv, next)
    requires (next.Consume? && recv.Look?) || next.Unregister? ==> At(buckets, received).filled
    ensures RecvOk(buckets, f, accepted, received, next) && Blocked(cap, word, f, next)
    ensures RecvPart(next) == RecvPart(recv) && !Serving(recv) && !Serving(next)
    ensures Critical(next) == Critical(recv)
  {
  }

  lemma {:induction false} PollKeeps(s: State, next: Recv, slot: Option<nat>, polls: nat)
    requires Inv(s) && Polls(s.recv, next)
    requires (next.Consume? && s.recv.Look?) || next.Unregister? ==> Filled(s)
    requires next.Recheck? ==> slot == Some(next.poll)
    requires next.Pending? ==> !Filled(s) && slot == s.slot
    ensures Inv(s.(recv := next, slot := slot, polls := polls))
  {
    InvParts(s);
    HeadIsNext(s);
    PollBell(s.buckets, s.accepted, |s.received|, s.recv, next, s.senders, s.slot, slot, s.rung);
    PollFacts(s.buckets, s.futex, s.accepted, |s.received|, s.recv, next, |s.buckets|, s.word);
    hide Inv, Law, Bell, Blocked, RecvOk, Counts, Polls, RecvPart, Serving, Critical, Filled;
    PollLaw(s.futex, s.senders, s.recv, next);
    RecvTurns(s, s.futex, next, slot, polls);
  }

  lemma {:induction false} RecvPollKeeps(s: State, c: Choice)
    requires Inv(s)
    requires s.recv.Rest? || s.recv.Look? || s.recv.Register? || s.recv.Recheck? || s.recv.Unregister?
             || s.recv.Pending?
    ensures Inv(StepRecv(s, c))
  {
    hide Inv, Filled;
    match s.recv
    case Rest => PollKeeps(s, Look, s.slot, s.polls);
    case Look => PollKeeps(s, if Filled(s) then Consume else Register, s.slot, s.polls);
    case Register => PollKeeps(s, Recheck(s.polls), Some(s.polls), s.polls + 1);
    case Recheck(poll) => PollKeeps(s, if Filled(s) then Unregister else Pending(poll), s.slot, s.polls);
    case Unregister => PollKeeps(s, Consume, None, s.polls);
    case Pending(_) => PollKeeps(s, Look, s.slot, s.polls);
  }

  // ----- locks -----

  lemma {:induction false} LockBell(buckets: seq<Bucket>, accepted: seq<nat>, received: nat, recv: Recv,
                                    senders: seq<Sender>, slot: Option<nat>, rung: set<nat>)
    requires |buckets| > 0 && !recv.Recheck? && !recv.Pending?
    ensures Bell(buckets, accepted, received, recv, senders, slot, rung)
  {
  }

  /** The critical section takes and releases the guard and the queue, and looks at the word. */
  predicate Locks(recv: Recv, next: Recv)
  {
    || (recv.TakeGuard? && next == TakeQueue(recv.slot))
    || (recv.TakeQueue? && next == PopFirst(recv.slot))
    || (recv.Return? && next.Leave?)
    || (recv.Leave? && next.Rest?)
    || (recv.PopFirst? && next.Decide? && next.slot == recv.slot)
    || (recv.Decide? && next.Decide? && next.slot == recv.slot)
    || (recv.Advance? && next.Advance? && next.slot == recv.slot && next.w == recv.w)
  }

  lemma {:induction false} LockFacts(buckets: seq<Bucket>, f: Futex, f': Futex, accepted: seq<nat>, received: nat,
                                     recv: Recv, next: Recv, word: Word)
    requires |buckets| > 0 && RecvOk(buckets, f, accepted, received, recv) && Blocked(|buckets|, word, f, recv)
    requires Locks(recv, next) && f'.inbox == f.inbox && f'.queues == f.queues
    requires next.Decide? ==> next.snap == Snap(word, Top(f)) && Front(f) == [] && word.size > 0
    requires next.Advance? ==> next.snap == Snap(word, Top(f))
    ensures RecvOk(buckets, f', accepted, received, next) && Blocked(|buckets|, word, f', next)
    ensures !Serving(recv) && !Serving(next) && Critical(next) == Critical(recv)
    ensures !next.Recheck? && !next.Pending?
  {
  }

  lemma {:induction false} RecvLockKeeps(s: State, f: Futex, next: Recv)
    requires Inv(s) && Locks(s.recv, next) && f.inbox == s.futex.inbox && f.queues == s.futex.queues
    requires next.Decide? ==> next.snap == Current(s) && Front(s.futex) == []
    requires next.Advance? ==> next.snap == Current(s)
    requires Law(f, s.senders, next)
    ensures Inv(s.(futex := f, recv := next))
  {
    InvParts(s);
    HeadIsNext(s);
    LockFacts(s.buckets, s.futex, f, s.accepted, |s.received|, s.recv, next, s.word);
    LockBell(s.buckets, s.accepted, |s.received|, next, s.senders, s.slot, s.rung);
    hide Inv, Law, Bell, Blocked, RecvOk, Counts, Locks, Serving, Critical;
    RecvTurns(s, f, next, s.slot, s.polls);
  }

  /** Only the receiver ever takes the queue. */
  lemma {:induction false} QueueFree(senders: seq<Sender>, recv: Recv)
    requires RecvPart(recv).borrow == 0
    ensures forall i :: 0 <= i < |senders| + 1 ==> Parts(senders, recv)[i].borrow == 0
  {
  }

  lemma {:induction false} GuardLaw(f: Futex, senders: seq<Sender>, slot: nat)
    requires Law(f, senders, TakeGuard(slot)) && !f.exclusive
    ensures Law(Share(f), senders, TakeQueue(slot))
  {
    hide Lawful;
    RecvParts(senders, TakeGuard(slot), TakeQueue(slot));
    ShareLaw(f, Parts(senders, TakeGuard(slot)), |senders|);
  }

  lemma {:induction false} LeaveLaw(f: Futex, senders: seq<Sender>)
    requires Law(f, senders, Leave)
    ensures Law(Unshare(f), senders, Rest)
  {
    hide Lawful;
    RecvParts(senders, Leave, Rest);
    UnshareLaw(f, Parts(senders, Leave), |senders|);
  }

  lemma {:induction false} ReturnLaw(f: Futex, senders: seq<Sender>)
    requires Law(f, senders, Return)
    ensures Law(DropBorrow(f), senders, Leave)
  {
    hide Lawful;
    RecvParts(senders, Return, Leave);
    DropBorrowLaw(f, Parts(senders, Return), |senders|);
  }

  lemma {:induction false} QueueLaw(s: State, slot: nat)
    requires Law(s.futex, s.senders, s.recv) && s.recv == TakeQueue(slot)
    ensures !s.futex.borrowed && Law(TakeBorrow(s.futex), s.senders, PopFirst(slot))
  {
    QueueFree(s.senders, s.recv);
    RecvParts(s.senders, s.recv, PopFirst(slot));
    hide Lawful, Parts;
    TakeBorrowLaw(s.futex, Parts(s.senders, s.recv), |s.senders|);
  }

  lemma {:induction false} RecvGuardKeeps(s: State, c: Choice)
    requires Inv(s) && (s.recv.TakeGuard? || s.recv.TakeQueue? || s.recv.Return? || s.recv.Leave?)
    ensures Inv(StepRecv(s, c))
  {
    hide Inv, Law, Counts, Blocked, RecvOk;
    InvParts(s);
    match s.recv
    case TakeGuard(slot) =>
      if !s.futex.exclusive {
        GuardLaw(s.futex, s.senders, slot);
        RecvLockKeeps(s, Share(s.futex), TakeQueue(slot));
      }
    case TakeQueue(slot) =>
      QueueLaw(s, slot);
      RecvLockKeeps(s, TakeBorrow(s.futex), PopFirst(slot));
    case Return =>
      ReturnLaw(s.futex, s.senders);
      RecvLockKeeps(s, DropBorrow(s.futex), Leave);
    case Leave =>
      LeaveLaw(s.futex, s.senders);
      RecvLockKeeps(s, Unshare(s.futex), Rest);
  }

  // ----- taking a message out -----

  lemma {:induction false} ConsumeFinds(s: State)
    requires Inv(s) && s.recv.Consume?
    ensures var r := |s.received|;
            && |s.buckets| > 0 && r < |s.accepted| <= r + |s.buckets|
            && s.recvHead == r % |s.buckets| && s.buckets[s.recvHead] == Bucket(true, Some(s.accepted[r]))
  {
    var r := |s.received|;
    assert At(s.buckets, r).filled;
    assert r < |s.accepted|;
    assert Placed(s.buckets, s.accepted, r, s.senders, s.recv, r);
  }

  lemma {:induction false} ConsumeRing(buckets: seq<Bucket>, accepted: seq<nat>, received: nat, recv: Recv, recv': Recv,
                                       senders: seq<Sender>)
    requires Ring(buckets, accepted, received, senders, recv) && !recv.Backfill?
    requires received < |accepted| <= received + |buckets|
    ensures Ring(buckets[received % |buckets| := Bucket(false, None)], accepted, received + 1, senders, recv')
  {
    var b, next := Bucket(false, None), received + 1;
    var buckets' := buckets[received % |buckets| := b];
    forall p | next <= p < |accepted|
      ensures Placed(buckets', accepted, next, senders, recv', p)
    {
      assert Placed(buckets, accepted, received, senders, recv, p);
      FillAt(buckets, received, b, received, p);
    }
    forall p | |accepted| <= p < next + |buckets|
      ensures !At(buckets', p).filled
    {
      if p < received + |buckets| {
        FillAt(buckets, received, b, received, p);
      } else {
        RoundPlace(received, |buckets|);
      }
    }
  }

  lemma {:induction false} ConsumePeople(buckets: seq<Bucket>, accepted: seq<nat>, received: nat, recv: Recv,
          recv': Recv,
                                         senders: seq<Sender>)
    requires People(buckets, accepted, received, recv, senders) && !Serving(recv) && !Serving(recv')
    requires received < |accepted| <= received + |buckets| && At(buckets, received).filled
    ensures People(buckets[received % |buckets| := Bucket(false, None)], accepted, received + 1, recv', senders)
  {
    var b := Bucket(false, None);
    var buckets' := buckets[received % |buckets| := b];
    forall t | 0 <= t < |senders|
      ensures SenderOk(buckets', accepted, received + 1, recv', t, senders[t])
    {
      assert SenderOk(buckets, accepted, received, recv, t, senders[t]);
      if senders[t].pc.SendFill? {
        FillAt(buckets, received, b, received, senders[t].pc.pos);
      }
    }
  }

  lemma {:induction false} ConsumeCounts(s: State)
    requires Inv(s) && s.recv.Consume?
    ensures var r := |s.received|;
            && Counts(|s.buckets|, s.word, Next(s, s.recvHead), |s.accepted|, r + 1, TakeGuard(s.recvHead))
            && Blocked(|s.buckets|, s.word, s.futex, TakeGuard(s.recvHead))
  {
    hide Law, Ring, People, Distinct, Bell;
    ConsumeFinds(s);
    NextPlace(|s.received|, |s.buckets|);
  }

  /** Taking a message out: it is the oldest accepted one. */
  lemma {:induction false} ConsumeKeeps(s: State)
    requires Inv(s) && s.recv.Consume?
    ensures Inv(StepConsume(s)) && StepConsume(s).received == s.received + [s.accepted[|s.received|]]
  {
    hide Lawful, Counts, Ring, People, Distinct, Bell, Blocked;
    ConsumeFinds(s);
    ConsumeCounts(s);
    InvParts(s);
    var r, recv := |s.received|, TakeGuard(s.recvHead);
    var buckets := s.buckets[s.recvHead := Bucket(false, None)];
    PollLaw(s.futex, s.senders, s.recv, recv);
    ConsumeRing(s.buckets, s.accepted, r, s.recv, recv, s.senders);
    ConsumePeople(s.buckets, s.accepted, r, s.recv, recv, s.senders);
    LockBell(buckets, s.accepted, r + 1, recv, s.senders, s.slot, s.rung);
    assert s.accepted[..r] + [s.accepted[r]] == s.accepted[..r + 1];
  }

  // ----- serving the first blocked sender -----

  lemma {:induction false} PopRecvLaw(f: Futex, senders: seq<Sender>, recv: Recv, next: Recv, w: Waiter)
    requires Law(f, senders, recv) && Front(f) != [] && w == f.queues[0][0]
    requires RecvPart(recv) == OUTSIDE.(guard := 1, borrow := 1)
    requires RecvPart(next) == OUTSIDE.(guard := 1, borrow := 1, hand := [w])
    ensures Law(Pop(f, 0, 1), senders, next)
  {
    RecvParts(senders, recv, next);
    assert f.queues[0][..1] == [w];
    hide Lawful, Parts, RecvPart;
    PopLaw(f, Parts(senders, recv), |senders|, 0, 1, RecvPart(next));
  }

  lemma {:induction false} PopAdvances(s: State, slot: nat)
    requires Inv(s) && s.recv == PopFirst(slot) && Front(s.futex) != []
    ensures Inv(s.(recv := Advance(slot, Current(s), s.futex.queues[0][0]), futex := Pop(s.futex, 0, 1)))
  {
    hide Inv, Law, Bell, Counts;
    InvParts(s);
    HeadIsNext(s);
    var next := Advance(slot, Current(s), s.futex.queues[0][0]);
    PopRecvLaw(s.futex, s.senders, s.recv, next, s.futex.queues[0][0]);
    LockBell(s.buckets, s.accepted, |s.received|, next, s.senders, s.slot, s.rung);
    RecvTurns(s, Pop(s.futex, 0, 1), next, s.slot, s.polls);
  }

  lemma {:induction false} PopFirstKeeps(s: State, slot: nat)
    requires Inv(s) && s.recv == PopFirst(slot)
    ensures Inv(StepPop(s, slot))
  {
    if Front(s.futex) != [] {
      hide Inv;
      PopAdvances(s, slot);
    } else {
      InvParts(s);
      hide Inv, Lawful, Parts, Counts, Blocked, RecvOk;
      PollLaw(s.futex, s.senders, s.recv, Decide(slot, Current(s)));
      RecvLockKeeps(s, s.futex, Decide(slot, Current(s)));
    }
  }

  /** A popped sender sleeps and its message has no place yet. */
  lemma {:induction false} ServedSleeps(s: State, f: Futex, recv: Recv, w: Waiter)
    requires People(s.buckets, s.accepted, |s.received|, s.recv, s.senders) && !Serving(s.recv)
    requires Law(f, s.senders, recv) && RecvPart(recv).hand == [w]
    ensures w.task < |s.senders| && PartOf(s.senders[w.task]).waits == Some(0)
    ensures s.senders[w.task].full && w.task !in s.accepted
  {
    RecvParts(s.senders, recv, recv);
    HandSleeps(f, Parts(s.senders, recv), |s.senders|);
    assert Parts(s.senders, recv)[w.task] == PartOf(s.senders[w.task]);
    assert SenderOk(s.buckets, s.accepted, |s.received|, s.recv, w.task, s.senders[w.task]);
  }

  lemma {:induction false} GiveRing(buckets: seq<Bucket>, accepted: seq<nat>, received: nat, recv: Recv, recv': Recv,
                                    senders: seq<Sender>, w: Waiter)
    requires Ring(buckets, accepted, received, senders, recv) && !recv.Backfill?
    requires |accepted| + 1 == received + |buckets| && recv'.Backfill? && recv'.w == w
    ensures Ring(buckets, accepted + [w.task], received, senders, recv')
  {
    var accepted' := accepted + [w.task];
    forall p | received <= p < |accepted'|
      ensures Placed(buckets, accepted', received, senders, recv', p)
    {
      if p < |accepted| {
        assert Placed(buckets, accepted, received, senders, recv, p);
      } else {
        assert !At(buckets, p).filled;
      }
    }
  }

  lemma {:induction false} GivePeople(buckets: seq<Bucket>, accepted: seq<nat>, received: nat, recv: Recv, recv': Recv,
                                      senders: seq<Sender>, w: Waiter)
    requires People(buckets, accepted, received, recv, senders) && !Serving(recv)
    requires recv'.Backfill? && recv'.w == w
    requires w.task < |senders| && PartOf(senders[w.task]).waits.Some? && senders[w.task].full
    ensures People(buckets, accepted + [w.task], received, recv', senders)
  {
    forall t | 0 <= t < |senders|
      ensures SenderOk(buckets, accepted + [w.task], received, recv', t, senders[t])
    {
      assert SenderOk(buckets, accepted, received, recv, t, senders[t]);
    }
  }

  /** The place of the emptied bucket, which is the next one to write, goes to the popped sender. */
  lemma {:induction false} GiveKeeps(s: State, f: Futex, slot: nat, w: Waiter)
    requires Inv(s) && (s.recv.Advance? || s.recv.Decide?) && s.recv.slot == slot && s.word.size == |s.buckets|
    requires Law(f, s.senders, Backfill(slot, w))
    ensures Inv(s.(recv := Backfill(slot, w), futex := f, word := Word(Next(s, s.word.writeHead), s.word.size),
                   accepted := s.accepted + [w.task]))
  {
    hide Law, Ring, People, Distinct, Bell;
    var recv := Backfill(slot, w);
    ServedSleeps(s, f, recv, w);
    NextPlace(|s.accepted|, |s.buckets|);
    LockBell(s.buckets, s.accepted + [w.task], |s.received|, recv, s.senders, s.slot, s.rung);
    GiveRing(s.buckets, s.accepted, |s.received|, s.recv, recv, s.senders, w);
    GivePeople(s.buckets, s.accepted, |s.received|, s.recv, recv, s.senders, w);
    AcceptDistinct(s.accepted, w.task);
    assert (s.accepted + [w.task])[..|s.received|] == s.accepted[..|s.received|];
  }

  lemma {:induction false} AdvanceKeeps(s: State, c: Choice, slot: nat, snap: Snap<Word>, w: Waiter)
    requires Inv(s) && s.recv == Advance(slot, snap, w)
    ensures Inv(StepAdvance(s, c, slot, snap, w))
  {
    InvParts(s);
    if Swaps(s, snap, c) {
      PollLaw(s.futex, s.senders, s.recv, Backfill(slot, w));
      hide Inv, Law, Counts, Blocked;
      GiveKeeps(s, s.futex, slot, w);
    } else {
      PollLaw(s.futex, s.senders, s.recv, Advance(slot, Current(s), w));
      hide Inv, Law, Counts, Blocked;
      RecvLockKeeps(s, s.futex, Advance(slot, Current(s), w));
    }
  }

  lemma {:induction false} DecideLaws(s: State, slot: nat)
    requires Inv(s) && s.recv.Decide? && s.recv.slot == slot
    ensures Law(Enqueue(s.futex), s.senders, s.recv) && Front(Enqueue(s.futex)) == s.futex.inbox
    ensures Enqueue(s.futex).inbox == []
    ensures Law(Enqueue(s.futex), s.senders, Return)
  {
    hide Inv, Lawful, Parts;
    InvParts(s);
    SingleQueue(s.futex, Parts(s.senders, s.recv));
    EnqueueLaw(s.futex, Parts(s.senders, s.recv));
    PollLaw(Enqueue(s.futex), s.senders, s.recv, Return);
  }

  lemma {:induction false} DecideGives(s: State, slot: nat)
    requires Inv(s) && s.recv.Decide? && s.recv.slot == slot && s.futex.inbox != [] && s.word.size == |s.buckets|
    ensures var e := Enqueue(s.futex);
            && Front(e) != []
            && Inv(s.(recv := Backfill(slot, e.queues[0][0]), futex := Pop(e, 0, 1),
                      word := Word(Next(s, s.word.writeHead), s.word.size),
                      accepted := s.accepted + [e.queues[0][0].task]))
  {
    hide Inv, Lawful, Parts, Enqueue, Pop;
    DecideLaws(s, slot);
    var e := Enqueue(s.futex);
    PopRecvLaw(e, s.senders, s.recv, Backfill(slot, e.queues[0][0]), e.queues[0][0]);
    GiveKeeps(s, Pop(e, 0, 1), slot, e.queues[0][0]);
  }

  /** With no sender waiting the place becomes free. */
  lemma {:induction false} FreeKeeps(s: State, slot: nat, f: Futex)
    requires Inv(s) && s.recv.Decide? && s.recv.slot == slot && f.inbox == [] && Front(f) == []
    requires Law(f, s.senders, Return)
    ensures s.word.size > 0
    ensures Inv(s.(recv := Return, futex := f, word := Word(s.word.writeHead, s.word.size - 1)))
  {
    hide Law, Ring, People, Distinct, Bell;
    LockBell(s.buckets, s.accepted, |s.received|, Return, s.senders, s.slot, s.rung);
    RecvRing(s.buckets, s.accepted, |s.received|, s.senders, s.recv, Return);
    RecvPeople(s.buckets, s.accepted, |s.received|, s.senders, s.recv, Return);
  }

  lemma {:induction false} DecideKeeps(s: State, c: Choice, slot: nat, snap: Snap<Word>)
    requires Inv(s) && s.recv == Decide(slot, snap)
    ensures Inv(StepDecide(s, c, slot, snap))
  {
    InvParts(s);
    if !Swaps(s, snap, c) {
      hide Inv, Law, Counts, Blocked;
      DecideAgain(s, slot);
    } else if snap.inbox.Some? {
      hide Inv, Law, Counts, Blocked, Enqueue, Pop;
      DecideGives(s, slot);
    } else {
      DecideLaws(s, slot);
      hide Inv, Law, Counts, Blocked, Enqueue, Pop;
      FreeKeeps(s, slot, Enqueue(s.futex));
    }
  }

  lemma {:induction false} DecideAgain(s: State, slot: nat)
    requires Inv(s) && s.recv.Decide? && s.recv.slot == slot
    ensures Inv(s.(recv := Decide(slot, Current(s))))
  {
    hide Inv, Law, Counts, Blocked;
    InvParts(s);
    PollLaw(s.futex, s.senders, s.recv, Decide(slot, Current(s)));
    RecvLockKeeps(s, s.futex, Decide(slot, Current(s)));
  }

  // ----- back-filling -----

  lemma {:induction false} BackfillPeople(buckets: seq<Bucket>, accepted: seq<nat>, received: nat, recv: Recv,
          recv': Recv,
                                          senders: seq<Sender>, w: Waiter, pos: nat)
    requires People(buckets, accepted, received, recv, senders) && Distinct(accepted)
    requires recv.Backfill? && recv.w == w && recv' == Wake(w)
    requires w.task < |senders| && PartOf(senders[w.task]).waits.Some?
    requires received <= pos < |accepted| <= received + |buckets| && accepted[pos] == w.task
    ensures People(buckets[pos % |buckets| := Bucket(true, Some(w.task))], accepted, received, recv',
                   senders[w.task := senders[w.task].(full := false)])
  {
    var b := Bucket(true, Some(w.task));
    var buckets', senders' := buckets[pos % |buckets| := b], senders[w.task := senders[w.task].(full := false)];
    forall u | 0 <= u < |senders|
      ensures SenderOk(buckets', accepted, received, recv', u, senders'[u])
    {
      assert SenderOk(buckets, accepted, received, recv, u, senders[u]);
      if u != w.task && senders[u].pc.SendFill? {
        FillAt(buckets, pos, b, received, senders[u].pc.pos);
      }
    }
  }

  /** What the receiver knows when it fills the bucket for the popped sender. */
  lemma {:induction false} BackfillFinds(s: State, slot: nat, w: Waiter)
    requires Inv(s) && s.recv == Backfill(slot, w)
    ensures w.task < |s.senders| && PartOf(s.senders[w.task]).waits == Some(0) && s.senders[w.task].full
    ensures var pos := |s.accepted| - 1;
            && |s.buckets| > 0 && |s.received| <= pos && s.accepted[pos] == w.task
            && slot == pos % |s.buckets| && |s.accepted| == |s.received| + |s.buckets|
  {
    RecvParts(s.senders, s.recv, s.recv);
    assert Parts(s.senders, s.recv)[|s.senders|].hand == [w];
    HandSleeps(s.futex, Parts(s.senders, s.recv), |s.senders|);
    assert Parts(s.senders, s.recv)[w.task] == PartOf(s.senders[w.task]);
    SenderAt(s, w.task);
    RoundPlace(|s.received| - 1, |s.buckets|);
  }

  lemma {:induction false} BackfillLaw(s: State, slot: nat, w: Waiter)
    requires Law(s.futex, s.senders, s.recv) && s.recv == Backfill(slot, w) && w.task < |s.senders|
    ensures Law(s.futex, s.senders[w.task := s.senders[w.task].(full := false)], Wake(w))
  {
    hide Lawful;
    var x := s.senders[w.task].(full := false);
    PollLaw(s.futex, s.senders, s.recv, Wake(w));
    SenderParts(s.senders, Wake(w), w.task, x);
    assert PartOf(x) == PartOf(s.senders[w.task]);
    assert Parts(s.senders[w.task := x], Wake(w)) == Parts(s.senders, Wake(w));
  }

  lemma {:induction false} BackfillKeeps(s: State, slot: nat, w: Waiter)
    requires Inv(s) && s.recv == Backfill(slot, w)
    ensures Inv(StepBackfill(s, slot, w))
  {
    BackfillFinds(s, slot, w);
    BackfillLaw(s, slot, w);
    var pos, x := |s.accepted| - 1, s.senders[w.task].(full := false);
    var buckets := s.buckets[slot := Bucket(true, Some(w.task))];
    LockBell(buckets, s.accepted, |s.received|, Wake(w), s.senders[w.task := x], s.slot, s.rung);
    assert !s.senders[w.task].pc.SendFill?;
    hide Law, Ring, People, Distinct, Bell, PartOf;
    FillRing(s.buckets, s.accepted, |s.received|, s.recv, Wake(w), s.senders, w.task, x, pos);
    BackfillPeople(s.buckets, s.accepted, |s.received|, s.recv, Wake(w), s.senders, w, pos);
  }

  // ----- waking the served sender -----

  lemma {:induction false} WokenFacts(x: Sender)
    requires PartOf(x).waits.Some?
    ensures Woken(x.pc).Some? && PartOf(x.(pc := Woken(x.pc).value)) == PartOf(x).(waits := None)
    ensures WokenPc(Woken(x.pc).value) && !x.pc.SendFill? && !x.pc.SendSwap? && !x.pc.SendRing?
  {
  }

  lemma {:induction false} WakePeople(buckets: seq<Bucket>, accepted: seq<nat>, received: nat, recv: Recv,
                                      senders: seq<Sender>, w: Waiter, x: Sender)
    requires People(buckets, accepted, received, recv, senders) && recv == Wake(w)
    requires w.task < |senders| && x == senders[w.task].(pc := x.pc) && WokenPc(x.pc)
    ensures People(buckets, accepted, received, Return, senders[w.task := x])
  {
    var senders' := senders[w.task := x];
    forall u | 0 <= u < |senders|
      ensures SenderOk(buckets, accepted, received, Return, u, senders'[u])
    {
      assert SenderOk(buckets, accepted, received, recv, u, senders[u]);
    }
  }

  lemma {:induction false} WakeFinds(s: State, w: Waiter)
    requires Law(s.futex, s.senders, s.recv) && s.recv == Wake(w)
    ensures w.task < |s.senders| && PartOf(s.senders[w.task]).waits == Some(0)
  {
    RecvParts(s.senders, s.recv, s.recv);
    assert Parts(s.senders, s.recv)[|s.senders|].hand == [w];
    HandSleeps(s.futex, Parts(s.senders, s.recv), |s.senders|);
    assert Parts(s.senders, s.recv)[w.task] == PartOf(s.senders[w.task]);
  }

  lemma {:induction false} WakeLawful(s: State, w: Waiter, x: Sender)
    requires Law(s.futex, s.senders, s.recv) && s.recv == Wake(w) && w.task < |s.senders|
    requires PartOf(x) == PartOf(s.senders[w.task]).(waits := None)
    ensures Law(s.futex, s.senders[w.task := x], Return)
  {
    var parts, n := Parts(s.senders, s.recv), |s.senders|;
    RecvParts(s.senders, s.recv, Return);
    assert parts[n].hand == [w];
    WakeLaw(s.futex, parts, n, RecvPart(Return), PartOf(x));
    SenderParts(s.senders, Return, w.task, x);
  }

  lemma {:induction false} WakeKeeps(s: State, w: Waiter)
    requires Inv(s) && s.recv == Wake(w)
    ensures Inv(StepWake(s, w))
  {
    hide Law, Ring, People, Distinct, Bell, PartOf, Woken, WokenPc;
    WakeFinds(s, w);
    WokenFacts(s.senders[w.task]);
    var x := s.senders[w.task].(pc := Woken(s.senders[w.task].pc).value);
    WakeLawful(s, w, x);
    LockBell(s.buckets, s.accepted, |s.received|, Return, s.senders[w.task := x], s.slot, s.rung);
    WakePeople(s.buckets, s.accepted, |s.received|, s.recv, s.senders, w, x);
    TurnRing(s.buckets, s.accepted, |s.received|, s.recv, s.senders, w.task, x);
    RecvRing(s.buckets, s.accepted, |s.received|, s.senders[w.task := x], s.recv, Return);
  }

  // ----- every step, every run -----

  lemma {:induction false} RecvKeeps(s: State, c: Choice)
    requires Inv(s)
    ensures Inv(StepRecv(s, c))
  {
    hide Inv, StepConsume, StepPop, StepAdvance, StepDecide, StepBackfill, StepWake, Law, Counts, Blocked;
    InvParts(s);
    match s.recv
    case Rest | Look | Register | Recheck(_) | Unregister | Pending(_) => RecvPollKeeps(s, c);
    case Consume => ConsumeKeeps(s);
    case TakeGuard(_) | TakeQueue(_) | Return | Leave => RecvGuardKeeps(s, c);
    case PopFirst(slot) => PopFirstKeeps(s, slot);
    case Advance(slot, snap, w) => AdvanceKeeps(s, c, slot, snap, w);
    case Decide(slot, snap) => DecideKeeps(s, c, slot, snap);
    case Backfill(slot, w) => BackfillKeeps(s, slot, w);
    case Wake(w) => WakeKeeps(s, w);
  }

  lemma {:induction false} StepKeeps(s: State, a: Actor, c: Choice)
    requires Inv(s)
    ensures Inv(Step(s, a, c))
  {
    hide Inv;
    match a
    case Receiver => RecvKeeps(s, c);
    case Send(t) =>
      if t < |s.senders| {
        SendKeeps(s, t, c);
      }
  }

  lemma {:induction false} InitKeeps(cap: nat, senders: nat)
    requires cap > 0
    ensures Inv(Init(cap, senders))
  {
    hide Lawful;
    var s := Init(cap, senders);
    NewLaw(1, Parts(s.senders, s.recv));
  }

  /** Every reachable state: any capacity, any number of sends, any interleaving. */
  lemma {:induction false} RunKeeps(cap: nat, senders: nat, schedule: seq<(Actor, Choice)>)
    requires cap > 0
    ensures Inv(Run(Init(cap, senders), schedule))
    decreases |schedule|
  {
    if schedule == [] {
      InitKeeps(cap, senders);
    } else {
      var last := |schedule| - 1;
      RunKeeps(cap, senders, schedule[..last]);
      hide Inv;
      StepKeeps(Run(Init(cap, senders), schedule[..last]), schedule[last].0, schedule[last].1);
    }
  }
}
