/** What the channel promises: it refines a bounded first-in first-out queue with a line
  of blocked senders, loses and duplicates nothing, and wakes its receiver.
 */
module MpscOrder {
  import opened Counting
  import opened Futex
  import opened FutexLaws
  import opened Mpsc
  import opened MpscProof
  import opened Options
  import opened Places
  import opened Sequences

  // ----- the channel as its users see it -----

  /** buffer: the messages in the channel. line: the senders blocked until there is room.
    delivered: the messages the receiver has got. */
  datatype Channel = Channel(cap: nat, buffer: seq<nat>, line: seq<Waiter>, delivered: seq<nat>)

  datatype Event =
    | Stay
    | Put(message: nat)
    | Block(w: Waiter)
    | Get
    | Quit(w: Waiter)

  predicate Allowed(a: Channel, e: Event)
  {
    match e
    case Stay => true
    case Put(_) => |a.buffer| < a.cap && a.line == []
    case Block(_) => |a.buffer| == a.cap
    case Get => a.buffer != []
    case Quit(_) => true
  }

  /** Receiving makes room, which goes to the first blocked sender if there is one. */
  function Apply(a: Channel, e: Event): Channel
    requires Allowed(a, e)
  {
    match e
    case Stay => a
    case Put(message) => a.(buffer := a.buffer + [message])
    case Block(w) => a.(line := a.line + [w])
    case Get =>
      Channel(a.cap,
              if a.line == [] then a.buffer[1..] else a.buffer[1..] + [a.line[0].task],
              if a.line == [] then [] else a.line[1..],
              a.delivered + [a.buffer[0]])
    case Quit(w) => a.(line := Without(a.line, w))
  }

  /** Each actor acts for itself: only the receiver gets, and only a sender itself puts
    its message, blocks, or gives up. */
  predicate By(actor: Actor, e: Event)
  {
    match e
    case Stay => true
    case Get => actor == Receiver
    case Put(message) => actor == Send(message)
    case Block(w) => actor == Send(w.task)
    case Quit(w) => actor == Send(w.task)
  }

  /** Every event of the log is an act of the one whose turn it was. */
  predicate Acted(log: seq<Event>, schedule: seq<(Actor, Choice)>)
  {
    |log| == |schedule| && forall i :: 0 <= i < |log| ==> By(schedule[i].0, log[i])
  }

  lemma {:induction false} ActedOne(log: seq<Event>, e: Event, schedule: seq<(Actor, Choice)>)
    requires schedule != [] && Acted(log, schedule[..|schedule| - 1]) && By(schedule[|schedule| - 1].0, e)
    ensures Acted(log + [e], schedule)
  {
    hide By;
    forall i | 0 <= i < |log|
      ensures By(schedule[i].0, log[i])
    {
      assert schedule[..|schedule| - 1][i] == schedule[i];
    }
  }

  predicate Legal(a: Channel, log: seq<Event>)
    decreases |log|
  {
    log == [] || (Allowed(a, log[0]) && Legal(Apply(a, log[0]), log[1..]))
  }

  function Replay(a: Channel, log: seq<Event>): Channel
    requires Legal(a, log)
    decreases |log|
  {
    if log == [] then a else Replay(Apply(a, log[0]), log[1..])
  }

  lemma {:induction false} ReplayOne(a: Channel, log: seq<Event>, e: Event)
    requires Legal(a, log) && Allowed(Replay(a, log), e)
    ensures Legal(a, log + [e]) && Replay(a, log + [e]) == Apply(Replay(a, log), e)
    decreases |log|
  {
    if log == [] {
      assert (log + [e])[1..] == [];
    } else {
      ReplayOne(Apply(a, log[0]), log[1..], e);
      assert (log + [e])[1..] == log[1..] + [e];
    }
  }

  // ----- the view of a machine state -----

  /** The messages whose place has been given away: while the receiver is in its critical
    section the message it has just taken out still counts as in the channel. */
  function Done(s: State): nat
  {
    if Critical(s.recv) && s.received != [] then |s.received| - 1 else |s.received|
  }

  function InHand(recv: Recv): seq<Waiter>
  {
    if recv.Advance? then [recv.w] else []
  }

  function View(s: State): Channel
  {
    var n := if Done(s) <= |s.accepted| then Done(s) else 0;
    Channel(|s.buckets|, s.accepted[n..], InHand(s.recv) + (Front(s.futex) + s.futex.inbox), s.accepted[..n])
  }

  predicate Shows(s: State, s': State, e: Event)
  {
    Allowed(View(s), e) && View(s') == Apply(View(s), e)
  }

  /** The channel holds as many messages as the word counts. */
  lemma {:induction false} BufferIsSize(s: State)
    requires Inv(s)
    ensures |View(s).buffer| == s.word.size <= |s.buckets| && View(s).cap == |s.buckets|
    ensures Critical(s.recv) ==> s.received != []
    ensures Done(s) <= |s.accepted|
  {
    hide Law, Ring, People, Distinct, Bell;
  }

  lemma {:induction false} StayShows(s: State, s': State)
    requires |s'.buckets| == |s.buckets| && s'.accepted == s.accepted && Done(s') == Done(s)
    requires InHand(s'.recv) == InHand(s.recv)
    requires s'.futex.inbox == s.futex.inbox && s'.futex.queues == s.futex.queues
    ensures Shows(s, s', Stay)
  {
  }

  // ----- refinement, step by step -----

  lemma {:induction false} PutShows(s: State, t: nat, snap: Snap<Word>)
    requires Inv(s) && t < |s.senders| && s.senders[t].pc == SendTry(snap)
    requires snap == Current(s) && snap.word.size < |s.buckets|
    ensures Shows(s, Goto(s, t, SendFill(snap.word.writeHead, |s.accepted|)).(
              word := Word(Next(s, snap.word.writeHead), snap.word.size + 1), accepted := s.accepted + [t]), Put(t))
  {
    hide Inv;
    FreePlace(s);
    BufferIsSize(s);
    var n := Done(s);
    assert (s.accepted + [t])[n..] == s.accepted[n..] + [t];
    assert (s.accepted + [t])[..n] == s.accepted[..n];
  }

  lemma {:induction false} BlockShows(s: State, t: nat, snap: Snap<Word>)
    requires Inv(s) && t < |s.senders| && s.senders[t].pc == SendTry(snap)
    requires snap == Current(s) && snap.word.size >= |s.buckets|
    ensures Shows(s, Goto(s, t, Parked(false)).(futex := Push(s.futex, Waiter(t, 0))), Block(Waiter(t, 0)))
  {
    BufferIsSize(s);
    AppendLine(InHand(s.recv), Front(s.futex), s.futex.inbox, Waiter(t, 0));
    hide Inv, Front, InHand;
  }

  lemma {:induction false} SendTryShows(s: State, t: nat, c: Choice, snap: Snap<Word>) returns (e: Event)
    requires Inv(s) && t < |s.senders| && s.senders[t].pc == SendTry(snap)
    ensures Shows(s, StepSendTry(s, t, c, snap), e)
    ensures By(Send(t), e)
    ensures !e.Quit?
  {
    hide Inv, Shows;
    if !Swaps(s, snap, c) {
      StayShows(s, Goto(s, t, SendTry(Current(s))));
      e := Stay;
    } else if snap.word.size < |s.buckets| {
      PutShows(s, t, snap);
      e := Put(t);
    } else {
      BlockShows(s, t, snap);
      e := Block(Waiter(t, 0));
    }
  }

  /** A sender that gives up leaves the line; all others keep their place. */
  lemma {:induction false} QuitShows(s: State, t: nat, f: Futex, woken: bool, snap: Snap<Word>)
    requires Inv(s) && t < |s.senders| && s.senders[t].pc == CancelFlip(woken, snap) && Flipped(s.futex, f, snap)
    ensures Shows(s, Goto(s, t, CancelCheck(woken)).(futex := Include(Unlink(f, Waiter(t, 0)))), Quit(Waiter(t, 0)))
  {
    hide Inv, Lawful, Unlink, Flipped, Front, InHand;
    QuitLine(s, t, f, woken, snap);
    NoFront(Front(s.futex) + s.futex.inbox);
    NoFront(Without(Front(s.futex) + s.futex.inbox, Waiter(t, 0)));
  }

  lemma {:induction false} QuitLine(s: State, t: nat, f: Futex, woken: bool, snap: Snap<Word>)
    requires Inv(s) && t < |s.senders| && s.senders[t].pc == CancelFlip(woken, snap) && Flipped(s.futex, f, snap)
    ensures var f' := Include(Unlink(f, Waiter(t, 0)));
            && Front(f') + f'.inbox == Without(Front(s.futex) + s.futex.inbox, Waiter(t, 0))
            && InHand(s.recv) == []
  {
    ReceiverAway(s, t);
    SenderParts(s.senders, s.recv, t, s.senders[t]);
    UnlinkOrder(s.futex, f, Parts(s.senders, s.recv), t);
  }

  lemma {:induction false} CancelFlipShows(s: State, t: nat, c: Choice, woken: bool, snap: Snap<Word>)
    returns (e: Event)
    requires Inv(s) && t < |s.senders| && s.senders[t].pc == CancelFlip(woken, snap)
    ensures Shows(s, StepCancelFlip(s, t, c, woken, snap), e)
    ensures By(Send(t), e)
    ensures e.Quit? ==> s.senders[t].pc.CancelFlip?
  {
    hide Inv, Shows, Unlink, Enqueue;
    e := Quit(Waiter(t, 0));
    if snap.inbox.None? {
      QuitShows(s, t, s.futex, woken, snap);
    } else if Swaps(s, snap, c) {
      QuitShows(s, t, Enqueue(s.futex), woken, snap);
    } else {
      StayShows(s, Goto(s, t, CancelFlip(woken, Current(s))));
      e := Stay;
    }
  }

  lemma {:induction false} SendShows(s: State, t: nat, c: Choice) returns (e: Event)
    requires Inv(s) && t < |s.senders|
    ensures Shows(s, StepSend(s, t, c), e)
    ensures By(Send(t), e)
    ensures e.Quit? ==> s.senders[t].pc.CancelFlip?
  {
    hide Inv, Shows, View, StepSendTry, StepCancelFlip;
    match s.senders[t].pc
    case SendTry(snap) => e := SendTryShows(s, t, c, snap);
    case CancelFlip(woken, snap) => e := CancelFlipShows(s, t, c, woken, snap);
    case _ =>
      StayShows(s, StepSend(s, t, c));
      e := Stay;
  }

  lemma {:induction false} ConsumeShows(s: State)
    requires Inv(s) && s.recv.Consume?
    ensures Shows(s, StepConsume(s), Stay)
  {
    hide Inv;
    ConsumeKeeps(s);
    ConsumeFinds(s);
    StayShows(s, StepConsume(s));
  }

  lemma {:induction false} PopShows(s: State, slot: nat)
    requires Inv(s) && s.recv == PopFirst(slot)
    ensures Shows(s, StepPop(s, slot), Stay)
  {
    hide Inv;
    if Front(s.futex) != [] {
      var s' := StepPop(s, slot);
      var q := s.futex.queues[0];
      assert [q[0]] + (q[1..] + s.futex.inbox) == q + s.futex.inbox;
      assert [] + (q + s.futex.inbox) == q + s.futex.inbox;
    } else {
      StayShows(s, StepPop(s, slot));
    }
  }

  /** The place goes to the first of the line. */
  lemma {:induction false} GiveShows(s: State, f: Futex, slot: nat, w: Waiter)
    requires Inv(s) && (s.recv.Advance? || s.recv.Decide?)
    requires View(s).line == [w] + (Front(f) + f.inbox)
    ensures Shows(s, s.(recv := Backfill(slot, w), futex := f, word := Word(Next(s, s.word.writeHead), s.word.size),
                        accepted := s.accepted + [w.task]), Get)
  {
    hide Inv;
    BufferIsSize(s);
    GotOne(s);
    var n := Done(s);
    var accepted := s.accepted + [w.task];
    assert accepted[n + 1..] == s.accepted[n..][1..] + [w.task];
    assert accepted[..n + 1] == s.accepted[..n] + [s.accepted[n]];
    assert View(s).line[1..] == Front(f) + f.inbox;
    assert [] + (Front(f) + f.inbox) == Front(f) + f.inbox;
  }

  lemma {:induction false} GotOne(s: State)
    requires Inv(s) && Critical(s.recv)
    ensures Done(s) == |s.received| - 1 && Done(s) < |s.accepted| && s.word.size > 0
  {
    hide Law, Ring, People, Distinct, Bell;
  }

  lemma {:induction false} FreeShows(s: State, f: Futex)
    requires Inv(s) && s.recv.Decide? && View(s).line == [] && f.inbox == [] && Front(f) == []
    ensures s.word.size > 0
    ensures Shows(s, s.(recv := Return, futex := f, word := Word(s.word.writeHead, s.word.size - 1)), Get)
  {
    hide Inv;
    BufferIsSize(s);
    GotOne(s);
    var n := Done(s);
    assert s.accepted[n + 1..] == s.accepted[n..][1..];
    assert s.accepted[..n + 1] == s.accepted[..n] + [s.accepted[n]];
  }

  lemma {:induction false} AdvanceShows(s: State, c: Choice, slot: nat, snap: Snap<Word>, w: Waiter) returns (e: Event)
    requires Inv(s) && s.recv == Advance(slot, snap, w)
    ensures Shows(s, StepAdvance(s, c, slot, snap, w), e)
    ensures By(Receiver, e)
    ensures !e.Quit?
  {
    hide Law, Counts, Blocked;
    InvParts(s);
    if Swaps(s, snap, c) {
      hide Inv;
      GiveShows(s, s.futex, slot, w);
      e := Get;
    } else {
      hide Inv;
      StayShows(s, s.(recv := Advance(slot, Current(s), w)));
      e := Stay;
    }
  }

  lemma {:induction false} DecideGiveShows(s: State, slot: nat)
    requires Inv(s) && s.recv.Decide? && s.recv.slot == slot && s.futex.inbox != []
    ensures var e := Enqueue(s.futex);
            && Front(e) != []
            && Shows(s, s.(recv := Backfill(slot, e.queues[0][0]), futex := Pop(e, 0, 1),
                           word := Word(Next(s, s.word.writeHead), s.word.size),
                           accepted := s.accepted + [e.queues[0][0].task]), Get)
  {
    hide Inv, Law, Counts, Blocked, Enqueue;
    DecideLaws(s, slot);
    InvParts(s);
    var e := Enqueue(s.futex);
    var w := e.queues[0][0];
    assert [w] + (Front(Pop(e, 0, 1)) + []) == Front(e);
    assert View(s).line == [] + ([] + s.futex.inbox) == s.futex.inbox;
    GiveShows(s, Pop(e, 0, 1), slot, w);
  }

  lemma {:induction false} DecideFreeShows(s: State, slot: nat)
    requires Inv(s) && s.recv.Decide? && s.recv.slot == slot && s.futex.inbox == []
    ensures s.word.size > 0 && Front(Enqueue(s.futex)) == []
    ensures Shows(s,
                  s.(recv := Return, futex := Enqueue(s.futex), word := Word(s.word.writeHead, s.word.size - 1)), Get)
  {
    hide Inv, Law, Counts, Blocked, Enqueue;
    DecideLaws(s, slot);
    InvParts(s);
    FreeShows(s, Enqueue(s.futex));
  }

  lemma {:induction false} DecideShows(s: State, c: Choice, slot: nat, snap: Snap<Word>) returns (e: Event)
    requires Inv(s) && s.recv == Decide(slot, snap)
    ensures Shows(s, StepDecide(s, c, slot, snap), e)
    ensures By(Receiver, e)
    ensures !e.Quit?
  {
    hide Law, Counts, Blocked, Enqueue, Pop;
    InvParts(s);
    if !Swaps(s, snap, c) {
      hide Inv;
      StayShows(s, s.(recv := Decide(slot, Current(s))));
      e := Stay;
    } else if snap.inbox.Some? {
      hide Inv, Shows;
      DecideGiveShows(s, slot);
      e := Get;
    } else {
      hide Inv, Shows;
      DecideFreeShows(s, slot);
      e := Get;
    }
  }

  lemma {:induction false} ServeShows(s: State, c: Choice)
    requires Inv(s) && (s.recv.Backfill? || s.recv.Wake?)
    ensures Shows(s, StepRecv(s, c), Stay)
  {
    hide Inv, PartOf;
    if s.recv.Backfill? {
      BackfillFinds(s, s.recv.slot, s.recv.w);
    } else {
      InvParts(s);
      WakeFinds(s, s.recv.w);
      WokenFacts(s.senders[s.recv.w.task]);
    }
    StayShows(s, StepRecv(s, c));
  }

  /** The receiver finds the queue free, so it never fails to take it. */
  lemma {:induction false} GuardShows(s: State, c: Choice)
    requires Inv(s)
    requires !s.recv.Consume? && !s.recv.PopFirst? && !s.recv.Advance? && !s.recv.Decide?
          && !s.recv.Backfill? && !s.recv.Wake?
    ensures Shows(s, StepRecv(s, c), Stay)
  {
    hide Inv, Law, Counts, Blocked;
    InvParts(s);
    if s.recv.TakeQueue? {
      QueueLaw(s, s.recv.slot);
    }
    StayShows(s, StepRecv(s, c));
  }

  lemma {:induction false} RecvShows(s: State, c: Choice) returns (e: Event)
    requires Inv(s)
    ensures Shows(s, StepRecv(s, c), e)
    ensures By(Receiver, e)
    ensures !e.Quit?
  {
    hide Inv, Shows, StepConsume, StepPop, StepAdvance, StepDecide, StepBackfill, StepWake;
    e := Stay;
    match s.recv
    case Consume => ConsumeShows(s);
    case PopFirst(slot) => PopShows(s, slot);
    case Advance(slot, snap, w) => e := AdvanceShows(s, c, slot, snap, w);
    case Decide(slot, snap) => e := DecideShows(s, c, slot, snap);
    case Backfill(_, _) | Wake(_) => ServeShows(s, c);
    case _ => GuardShows(s, c);
  }

  /** The sender is at the point of leaving the line. */
  predicate Leaves(s: State, t: nat)
  {
    t < |s.senders| && s.senders[t].pc.CancelFlip?
  }

  /** Every step of the machine is a step of the bounded queue. */
  lemma {:induction false} StepShows(s: State, a: Actor, c: Choice) returns (e: Event)
    requires Inv(s)
    ensures Shows(s, Step(s, a, c), e)
    ensures By(a, e)
    ensures e.Quit? ==> Leaves(s, e.w.task)
  {
    hide Inv, View;
    match a
    case Receiver => e := RecvShows(s, c);
    case Send(t) =>
      if t < |s.senders| {
        e := SendShows(s, t, c);
      } else {
        e := Stay;
      }
  }

  function Start(cap: nat): Channel
  {
    Channel(cap, [], [], [])
  }

  /** At every moment of the run the machine shows what the log has made of the queue. */
  ghost predicate Tracks(cap: nat, senders: nat, schedule: seq<(Actor, Choice)>, log: seq<Event>)
  {
    && |log| == |schedule|
    && forall k :: 0 <= k <= |schedule| ==>
         && Legal(Start(cap), log[..k])
         && View(Run(Init(cap, senders), schedule[..k])) == Replay(Start(cap), log[..k])
  }

  lemma {:induction false} TracksOne(cap: nat, senders: nat, schedule: seq<(Actor, Choice)>, log: seq<Event>, e: Event)
    requires schedule != [] && Tracks(cap, senders, schedule[..|schedule| - 1], log) && Legal(Start(cap), log + [e])
    requires View(Run(Init(cap, senders), schedule)) == Replay(Start(cap), log + [e])
    ensures Tracks(cap, senders, schedule, log + [e])
  {
    hide Run, Init, View, Legal, Replay;
    var last := |schedule| - 1;
    forall k | 0 <= k <= |schedule|
      ensures Legal(Start(cap), (log + [e])[..k])
      ensures View(Run(Init(cap, senders), schedule[..k])) == Replay(Start(cap), (log + [e])[..k])
    {
      if k <= last {
        assert (log + [e])[..k] == log[..k];
        assert schedule[..last][..k] == schedule[..k];
      } else {
        assert (log + [e])[..k] == log + [e];
        assert schedule[..k] == schedule;
      }
    }
  }

  lemma {:induction false} TracksAll(cap: nat, senders: nat, schedule: seq<(Actor, Choice)>, log: seq<Event>)
    requires Tracks(cap, senders, schedule, log)
    ensures Legal(Start(cap), log) && View(Run(Init(cap, senders), schedule)) == Replay(Start(cap), log)
  {
    hide Run, Init, View, Legal, Replay;
    assert log[..|schedule|] == log;
    assert schedule[..|schedule|] == schedule;
  }

  /** Every run of the machine is, moment by moment, a run of the bounded queue. */
  lemma {:induction false} RunShows(cap: nat, senders: nat, schedule: seq<(Actor, Choice)>) returns (log: seq<Event>)
    requires cap > 0
    ensures Legal(Start(cap), log) && Acted(log, schedule)
    ensures Tracks(cap, senders, schedule, log)
    decreases |schedule|
  {
    hide Acted, Inv, View, Apply, Allowed, By, Step, Shows, Tracks, Start;
    if schedule == [] {
      log := [];
      StartView(cap, senders);
    } else {
      var last := |schedule| - 1;
      log := RunShows(cap, senders, schedule[..last]);
      TracksAll(cap, senders, schedule[..last], log);
      RunKeeps(cap, senders, schedule[..last]);
      var p := Run(Init(cap, senders), schedule[..last]);
      var e := StepShows(p, schedule[last].0, schedule[last].1);
      ShowsFollows(p, Step(p, schedule[last].0, schedule[last].1), e);
      ReplayOne(Start(cap), log, e);
      ActedOne(log, e, schedule);
      TracksOne(cap, senders, schedule, log, e);
      log := log + [e];
    }
  }

  lemma {:induction false} StartView(cap: nat, senders: nat)
    requires cap > 0
    ensures Tracks(cap, senders, [], []) && Legal(Start(cap), []) && Acted([], [])
  {
    assert View(Init(cap, senders)) == Start(cap);
  }

  lemma {:induction false} ShowsFollows(s: State, s': State, e: Event)
    requires Shows(s, s', e)
    ensures Allowed(View(s), e) && View(s') == Apply(View(s), e)
  {
    hide View, Allowed, Apply;
  }

  /** In other words: some legal log, with one event for every turn and each the act of the
    one whose turn it was, keeps the bounded queue at what the machine shows, at every
    moment of the run. */
  lemma {:induction false} RunRefines(cap: nat, senders: nat, schedule: seq<(Actor, Choice)>)
    requires cap > 0
    ensures exists log: seq<Event> ::
              Legal(Start(cap), log) && Acted(log, schedule) && Tracks(cap, senders, schedule, log)
  {
    hide Run, Init, View, Acted, Replay, Legal, Tracks, Start;
    var log := RunShows(cap, senders, schedule);
  }

  // ----- what a step does to others -----

  /** What others can do to a sender: take its message and wake its waiter. */
  predicate Touched(x: Sender, y: Sender)
  {
    y.pc == x.pc || Woken(x.pc) == Some(y.pc)
  }

  lemma {:induction false} LastStep(s: State, trace: seq<(Actor, Choice)>, a: Actor, c: Choice)
    ensures Run(s, trace + [(a, c)]) == Step(Run(s, trace), a, c)
  {
    hide Step;
    assert (trace + [(a, c)])[..|trace|] == trace;
  }

  /** A sender's step touches no other sender and not the receiver. */
  predicate Own(s: State, s': State, t: nat)
    requires t < |s.senders|
  {
    && |s'.buckets| == |s.buckets| && |s'.senders| == |s.senders| && s'.senders == s.senders[t := s'.senders[t]]
    && s'.recv == s.recv && s'.received == s.received && s'.recvHead == s.recvHead && s'.polls == s.polls
  }

  lemma {:induction false} SendingOwn(s: State, t: nat, c: Choice)
    requires t < |s.senders|
    requires var pc := s.senders[t].pc;
             pc.Ready? || pc.SendTry? || pc.SendFill? || pc.SendSwap? || pc.SendRing? || pc.Sent? || pc.Parked?
    ensures Own(s, StepSend(s, t, c), t)
  {
  }

  lemma {:induction false} CancelOwn(s: State, t: nat, c: Choice)
    requires t < |s.senders|
    requires var pc := s.senders[t].pc;
             pc.CancelWait? || pc.CancelLocked? || pc.CancelFlip? || pc.CancelCheck? || pc.Dropped? || pc.Lost?
    ensures Own(s, StepSend(s, t, c), t)
  {
  }

  lemma {:induction false} SendKeepsSize(s: State, t: nat, c: Choice)
    requires t < |s.senders|
    ensures Own(s, StepSend(s, t, c), t)
  {
    hide StepSend, Own;
    match s.senders[t].pc
    case CancelWait(_) | CancelLocked(_) | CancelFlip(_, _) | CancelCheck(_) | Dropped | Lost => CancelOwn(s, t, c);
    case _ => SendingOwn(s, t, c);
  }

  lemma {:induction false} RecvKeepsSize(s: State, c: Choice)
    ensures var s' := StepRecv(s, c);
            && |s'.buckets| == |s.buckets| && |s'.senders| == |s.senders|
            && forall t :: 0 <= t < |s.senders| ==> Touched(s.senders[t], s'.senders[t])
  {
    hide Enqueue, Pop;
  }

  lemma {:induction false} StepKeepsSize(s: State, a: Actor, c: Choice)
    ensures |Step(s, a, c).buckets| == |s.buckets| && |Step(s, a, c).senders| == |s.senders|
  {
    hide StepSend, StepRecv;
    match a
    case Receiver => RecvKeepsSize(s, c);
    case Send(t) =>
      if t < |s.senders| {
        SendKeepsSize(s, t, c);
      }
  }

  /** A step of somebody else touches a sender at most by serving it, and the receiver
    not at all. */
  lemma {:induction false} OthersTouched(s: State, a: Actor, c: Choice)
    ensures var s' := Step(s, a, c);
            && |s'.senders| == |s.senders|
            && (forall t: nat :: t < |s.senders| && a != Send(t) ==> Touched(s.senders[t], s'.senders[t]))
            && (a != Receiver ==> s'.recv == s.recv && s'.received == s.received && s'.recvHead == s.recvHead
                                  && s'.polls == s.polls)
  {
    hide StepSend, StepRecv;
    match a
    case Receiver => RecvKeepsSize(s, c);
    case Send(u) =>
      if u < |s.senders| {
        SendKeepsSize(s, u, c);
      }
  }

  // ----- nobody is overtaken -----

  /** All messages the channel has taken, in order. */
  function Taken(a: Channel): seq<nat>
  {
    a.delivered + a.buffer
  }

  lemma {:induction false} TakenIsAccepted(s: State)
    ensures Taken(View(s)) == s.accepted
  {
  }

  /** The message that an event makes the channel take. */
  function Takes(a: Channel, e: Event): seq<nat>
  {
    match e
    case Put(message) => [message]
    case Get => if a.line == [] then [] else [a.line[0].task]
    case _ => []
  }

  lemma {:induction false} EventTakes(a: Channel, e: Event)
    requires Allowed(a, e)
    ensures Taken(Apply(a, e)) == Taken(a) + Takes(a, e)
  {
    if e.Get? {
      assert a.buffer == [a.buffer[0]] + a.buffer[1..];
    }
  }

  /** x is in line, and m is not among those in front of it. */
  predicate Clear(line: seq<Waiter>, x: Waiter, m: nat)
  {
    exists q :: 0 <= q < |line| && line[q] == x && forall p :: 0 <= p <= q ==> line[p].task != m
  }

  /** x was taken before m. */
  predicate Ordered(taken: seq<nat>, x: nat, m: nat)
  {
    exists p, q :: 0 <= p < q < |taken| && taken[p] == x && taken[q] == m
  }

  /** Nothing stands between x and being taken before m, or it has been. */
  predicate First(a: Channel, x: Waiter, m: nat)
  {
    || (m !in Taken(a) && (Clear(a.line, x, m) || x.task in Taken(a)))
    || Ordered(Taken(a), x.task, m)
  }

  lemma {:induction false} ClearWithout(line: seq<Waiter>, w: Waiter, x: Waiter, m: nat)
    requires Clear(line, x, m) && w != x
    ensures Clear(Without(line, w), x, m)
  {
    var q :| 0 <= q < |line| && line[q] == x && forall p :: 0 <= p <= q ==> line[p].task != m;
    var rest := Without(line, w);
    if line[0] == w {
      assert rest[q - 1] == x;
      forall p | 0 <= p <= q - 1
        ensures rest[p].task != m
      {
        assert rest[p] == line[p + 1];
      }
    } else if q == 0 {
      assert rest[0] == x;
    } else {
      assert Clear(line[1..], x, m) by {
        assert line[1..][q - 1] == x;
        forall p | 0 <= p <= q - 1
          ensures line[1..][p].task != m
        {
          assert line[1..][p] == line[p + 1];
        }
      }
      ClearWithout(line[1..], w, x, m);
      ClearAfter(line[0], Without(line[1..], w), x, m);
      assert rest == [line[0]] + Without(line[1..], w);
    }
  }

  lemma {:induction false} ClearAfter(front: Waiter, line: seq<Waiter>, x: Waiter, m: nat)
    requires Clear(line, x, m) && front.task != m
    ensures Clear([front] + line, x, m)
  {
    var q :| 0 <= q < |line| && line[q] == x && forall p :: 0 <= p <= q ==> line[p].task != m;
    var all := [front] + line;
    assert all[q + 1] == x;
  }

  lemma {:induction false} ClearRest(line: seq<Waiter>, x: Waiter, m: nat)
    requires Clear(line, x, m)
    ensures line != [] && line[0].task != m && (line[0] == x || Clear(line[1..], x, m))
  {
    var q :| 0 <= q < |line| && line[q] == x && forall p :: 0 <= p <= q ==> line[p].task != m;
    if q > 0 {
      assert line[1..][q - 1] == x;
      forall p | 0 <= p <= q - 1
        ensures line[1..][p].task != m
      {
        assert line[1..][p] == line[p + 1];
      }
    }
  }

  lemma {:induction false} ClearMore(line: seq<Waiter>, w: Waiter, x: Waiter, m: nat)
    requires Clear(line, x, m)
    ensures Clear(line + [w], x, m)
  {
    var q :| 0 <= q < |line| && line[q] == x && forall p :: 0 <= p <= q ==> line[p].task != m;
    assert (line + [w])[q] == x;
  }

  lemma {:induction false} OrderedMore(taken: seq<nat>, more: seq<nat>, x: nat, m: nat)
    requires Ordered(taken, x, m) || (x in taken && m in more)
    ensures Ordered(taken + more, x, m)
  {
    var all := taken + more;
    if Ordered(taken, x, m) {
      var p, q :| 0 <= p < q < |taken| && taken[p] == x && taken[q] == m;
      assert all[p] == x && all[q] == m;
    } else {
      var p :| 0 <= p < |taken| && taken[p] == x;
      var q :| 0 <= q < |more| && more[q] == m;
      assert all[p] == x && all[|taken| + q] == m;
    }
  }

  /** Whatever happens, unless x itself gives up, m is not taken before x. */
  lemma {:induction false} EventKeepsFirst(a: Channel, e: Event, x: Waiter, m: nat)
    requires Allowed(a, e) && First(a, x, m) && e != Quit(x) && m != x.task
    ensures First(Apply(a, e), x, m)
  {
    hide Ordered, Clear, Taken;
    EventTakes(a, e);
    if Ordered(Taken(a), x.task, m) || x.task in Taken(a) {
      if Ordered(Taken(a), x.task, m) || m in Takes(a, e) {
        OrderedMore(Taken(a), Takes(a, e), x.task, m);
      }
    } else {
      ClearRest(a.line, x, m);
      match e
      case Quit(w) => ClearWithout(a.line, w, x, m);
      case Block(w) => ClearMore(a.line, w, x, m);
      case Get | Stay =>
      case Put(_) => assert false;
    }
  }

  // ----- waiting in line over a whole run -----

  predicate Cancelling(pc: Pc)
  {
    pc.CancelWait? || pc.CancelLocked? || pc.CancelFlip? || pc.CancelCheck?
  }

  /** The sender does not give up in the turns to come. */
  predicate Patient(s: State, more: seq<(Actor, Choice)>, t: nat)
  {
    && (t < |s.senders| ==> !Cancelling(s.senders[t].pc))
    && forall i :: 0 <= i < |more| && more[i].0 == Send(t) ==> !more[i].1.op.Cancel?
  }

  lemma {:induction false} OwnTurn(s: State, t: nat, c: Choice)
    requires t < |s.senders| && !c.op.Cancel? && !Cancelling(s.senders[t].pc)
    ensures |StepSend(s, t, c).senders| == |s.senders| && !Cancelling(StepSend(s, t, c).senders[t].pc)
  {
    hide Push, Current;
  }

  lemma {:induction false} TouchedPatient(x: Sender, y: Sender)
    requires Touched(x, y) && !Cancelling(x.pc)
    ensures !Cancelling(y.pc)
  {
  }

  lemma {:induction false} PatientOne(s: State, more: seq<(Actor, Choice)>, t: nat)
    requires more != [] && Patient(s, more, t)
    ensures Patient(Step(s, more[0].0, more[0].1), more[1..], t)
  {
    hide StepSend, StepRecv, Cancelling, Touched;
    var (a, c) := more[0];
    forall i | 0 <= i < |more[1..]| && more[1..][i].0 == Send(t)
      ensures !more[1..][i].1.op.Cancel?
    {
      assert more[1..][i] == more[i + 1];
    }
    OthersTouched(s, a, c);
    if t < |s.senders| {
      if a == Send(t) {
        OwnTurn(s, t, c);
      } else {
        TouchedPatient(s.senders[t], Step(s, a, c).senders[t]);
      }
    }
  }

  lemma {:induction false} RunOne(cap: nat, senders: nat, schedule: seq<(Actor, Choice)>, a: Actor, c: Choice)
    ensures Run(Init(cap, senders), schedule + [(a, c)]) == Step(Run(Init(cap, senders), schedule), a, c)
  {
    hide Step;
    assert (schedule + [(a, c)])[..|schedule|] == schedule;
  }

  lemma {:induction false} StepKeepsFirst(s: State, a: Actor, c: Choice, x: Waiter, m: nat)
    requires Inv(s) && First(View(s), x, m) && m != x.task && !Leaves(s, x.task)
    ensures First(View(Step(s, a, c)), x, m)
  {
    hide Inv, View, Step, First;
    var e := StepShows(s, a, c);
    EventKeepsFirst(View(s), e, x, m);
  }

  lemma {:induction false} RunKeepsFirst(cap: nat, senders: nat, schedule: seq<(Actor, Choice)>,
        more: seq<(Actor, Choice)>, x: Waiter, m: nat)
    requires cap > 0 && m != x.task
    requires var s := Run(Init(cap, senders), schedule); First(View(s), x, m) && Patient(s, more, x.task)
    ensures First(View(Run(Init(cap, senders), schedule + more)), x, m)
    decreases |more|
  {
    hide Run, Init, Inv, View, Step, First, Patient;
    if more == [] {
      assert schedule + more == schedule;
    } else {
      var (a, c) := more[0];
      var s := Run(Init(cap, senders), schedule);
      RunKeeps(cap, senders, schedule);
      PatientStays(s, more, x.task);
      StepKeepsFirst(s, a, c, x, m);
      RunOne(cap, senders, schedule, a, c);
      PatientOne(s, more, x.task);
      RunKeepsFirst(cap, senders, schedule + [(a, c)], more[1..], x, m);
      assert schedule + [(a, c)] + more[1..] == schedule + more;
    }
  }

  lemma {:induction false} PatientStays(s: State, more: seq<(Actor, Choice)>, t: nat)
    requires Patient(s, more, t)
    ensures !Leaves(s, t)
  {
  }

  // ----- what the channel promises -----

  /** No send overtakes a blocked sender: as long as x, blocked in line, does not give up,
    a message that is neither taken nor in front of x is taken only after x's, be its
    sender blocked behind x, or yet to come. */
  lemma {:induction false} NoOvertaking(cap: nat, senders: nat, schedule: seq<(Actor, Choice)>,
        more: seq<(Actor, Choice)>, x: Waiter, m: nat)
    requires cap > 0 && m != x.task
    requires var s := Run(Init(cap, senders), schedule);
             m !in s.accepted && Clear(View(s).line, x, m) && Patient(s, more, x.task)
    ensures var s' := Run(Init(cap, senders), schedule + more);
            m in s'.accepted ==> Ordered(s'.accepted, x.task, m)
  {
    hide Run, Init, View, Patient, Clear, Ordered, Taken;
    TakenIsAccepted(Run(Init(cap, senders), schedule));
    RunKeepsFirst(cap, senders, schedule, more, x, m);
    TakenIsAccepted(Run(Init(cap, senders), schedule + more));
  }

  /** A blocked sender's message has not been taken, and it is in line once. */
  lemma {:induction false} BlockedOnce(s: State, i: nat, j: nat)
    requires Inv(s) && i < j < |View(s).line|
    ensures View(s).line[i].task != View(s).line[j].task && View(s).line[j].task !in s.accepted
  {
    hide Inv;
    InvParts(s);
    LineSleeps(s, View(s).line[i]);
    LineSleeps(s, View(s).line[j]);
    LineNotGiven(s, View(s).line[j]);
    LineFresh(s, View(s).line[j]);
    if View(s).line[i].task == View(s).line[j].task {
      assert View(s).line[i] == View(s).line[j];
      Twice(View(s).line, i, j);
      LineIsListed(s, View(s).line[i]);
      assert false;
    }
  }

  /** Nobody is listed twice, the receiver's hand included. */
  lemma {:induction false} ListedOnce(s: State, w: Waiter)
    requires Law(s.futex, s.senders, s.recv)
    ensures multiset(RecvPart(s.recv).hand)[w] + multiset(Front(s.futex))[w] + multiset(s.futex.inbox)[w] <= 1
  {
    var parts := Parts(s.senders, s.recv);
    RecvParts(s.senders, s.recv, s.recv);
    GatherAt(parts, HandOf, |s.senders|);
    GatherAt(s.futex.queues, AsMultiset, 0);
    assert HandOf(parts[|s.senders|]) == multiset(RecvPart(s.recv).hand);
    assert Listed(s.futex, parts)[w] <= 1;
  }

  lemma {:induction false} LineIsListed(s: State, w: Waiter)
    requires Law(s.futex, s.senders, s.recv)
    ensures multiset(View(s).line)[w] <= 1
  {
    hide Law;
    ListedOnce(s, w);
    LineMultiset(InHand(s.recv), Front(s.futex), s.futex.inbox);
  }

  lemma {:induction false} LineMultiset(a: seq<Waiter>, b: seq<Waiter>, c: seq<Waiter>)
    ensures multiset(a + (b + c)) == multiset(a) + (multiset(b) + multiset(c))
  {
  }

  /** Whoever is in line sleeps. */
  lemma {:induction false} LineSleeps(s: State, w: Waiter)
    requires Law(s.futex, s.senders, s.recv) && w in View(s).line
    ensures w.task < |s.senders| && PartOf(s.senders[w.task]).waits == Some(w.queue) && w.queue == 0
  {
    var parts := Parts(s.senders, s.recv);
    RecvParts(s.senders, s.recv, s.recv);
    if w in InHand(s.recv) {
      assert w in parts[|s.senders|].hand;
    }
    ListedWaits(s.futex, parts, w);
    assert w.task < |s.senders| ==> parts[w.task] == PartOf(s.senders[w.task]);
  }

  /** Nobody in line has been given a place. */
  lemma {:induction false} LineNotGiven(s: State, w: Waiter)
    requires Law(s.futex, s.senders, s.recv) && w in View(s).line
    ensures !Given(s.recv, w.task)
  {
    hide Law;
    if Given(s.recv, w.task) {
      GivenSleeper(s, s.recv.w);
      LineSleeps(s, w);
      assert s.recv.w == w;
      ListedOnce(s, w);
      assert false;
    }
  }

  lemma {:induction false} GivenSleeper(s: State, w: Waiter)
    requires Law(s.futex, s.senders, s.recv) && (s.recv.Backfill? || s.recv.Wake?) && w == s.recv.w
    ensures w.task < |s.senders| ==> PartOf(s.senders[w.task]).waits == Some(w.queue)
  {
    var parts := Parts(s.senders, s.recv);
    RecvParts(s.senders, s.recv, s.recv);
    assert w in parts[|s.senders|].hand;
    ListedWaits(s.futex, parts, w);
    assert w.task < |s.senders| ==> parts[w.task] == PartOf(s.senders[w.task]);
  }

  lemma {:induction false} LineFresh(s: State, w: Waiter)
    requires Inv(s) && w.task < |s.senders| && PartOf(s.senders[w.task]).waits.Some? && !Given(s.recv, w.task)
    ensures w.task !in s.accepted
  {
    hide Inv;
    SenderAt(s, w.task);
    WaitsAnyway(s.senders[w.task]);
  }

  lemma {:induction false} WaitsAnyway(x: Sender)
    requires PartOf(x).waits.Some?
    ensures PartOf(Sender(x.pc, true)).waits.Some?
  {
  }

  /** Of two blocked senders, the one in front not giving up, the message of the one behind
    is taken only after the message of the one in front. */
  lemma {:induction false} BlockedInOrder(cap: nat, senders: nat, schedule: seq<(Actor, Choice)>,
        more: seq<(Actor, Choice)>, i: nat, j: nat)
    requires cap > 0 && i < j < |View(Run(Init(cap, senders), schedule)).line|
    requires var s := Run(Init(cap, senders), schedule); Patient(s, more, View(s).line[i].task)
    ensures var s := Run(Init(cap, senders), schedule);
            var s' := Run(Init(cap, senders), schedule + more);
            var x, y := View(s).line[i].task, View(s).line[j].task;
            y in s'.accepted ==> Ordered(s'.accepted, x, y)
  {
    hide Run, Init, Inv, View, Patient, Ordered;
    var s := Run(Init(cap, senders), schedule);
    RunKeeps(cap, senders, schedule);
    BlockedOnce(s, i, j);
    forall p | 0 <= p <= i
      ensures View(s).line[p].task != View(s).line[j].task
    {
      BlockedOnce(s, p, j);
    }
    NoOvertaking(cap, senders, schedule, more, View(s).line[i], View(s).line[j].task);
  }

  /** Messages arrive in the order in which they were accepted, each at most once. */
  lemma {:induction false} DeliveredInOrder(cap: nat, senders: nat, schedule: seq<(Actor, Choice)>)
    requires cap > 0
    ensures var s := Run(Init(cap, senders), schedule);
            && s.received <= s.accepted && Distinct(s.accepted)
            && |s.accepted| - |s.received| <= cap
  {
    RunKeeps(cap, senders, schedule);
    var s := Run(Init(cap, senders), schedule);
    RunCap(cap, senders, schedule);
    PrefixOfAccepted(s);
  }

  lemma {:induction false} PrefixOfAccepted(s: State)
    requires Inv(s)
    ensures s.received <= s.accepted && |s.accepted| - |s.received| <= |s.buckets|
  {
    hide Law, Ring, People, Distinct, Bell, Blocked, RecvOk;
  }

  lemma {:induction false} RunCap(cap: nat, senders: nat, schedule: seq<(Actor, Choice)>)
    ensures |Run(Init(cap, senders), schedule).buckets| == cap
    decreases |schedule|
  {
    if schedule != [] {
      var last := |schedule| - 1;
      RunCap(cap, senders, schedule[..last]);
      var p := Run(Init(cap, senders), schedule[..last]);
      StepCap(p, schedule[last].0, schedule[last].1);
    }
  }

  lemma {:induction false} StepCap(s: State, a: Actor, c: Choice)
    ensures |Step(s, a, c).buckets| == |s.buckets|
  {
  }

  /** A sender whose send returned, or that was cancelled after being served, has had its
    message accepted; one that gave up while sleeping has not and keeps it. */
  lemma {:induction false} SendersKnow(cap: nat, senders: nat, schedule: seq<(Actor, Choice)>, t: nat)
    requires cap > 0 && t < |Run(Init(cap, senders), schedule).senders|
    ensures var s := Run(Init(cap, senders), schedule);
            var x := s.senders[t];
            && (x.pc == CancelCheck(true) ==> !x.full)
            && (x.pc == CancelCheck(false) ==> x.full && t !in s.accepted)
            && (x.pc.Ready? || x.pc.SendTry? ==> x.full && t !in s.accepted)
            && !x.pc.Lost?
  {
    RunKeeps(cap, senders, schedule);
    SenderAt(Run(Init(cap, senders), schedule), t);
  }

  /** What has become of each message: it is accepted once it has left its sender, and the
    message of a sender that gave up is accepted only if it has left. */
  predicate Settled(s: State)
  {
    forall t :: 0 <= t < |s.senders| ==> SettledAt(s.accepted, t, s.senders[t])
  }

  predicate SettledAt(accepted: seq<nat>, t: nat, x: Sender)
  {
    && (!x.full ==> t in accepted)
    && (x.pc.SendSwap? || x.pc.SendRing? || x.pc.Sent? ==> !x.full)
    && (x.pc.Dropped? && x.full ==> t !in accepted)
  }

  lemma {:induction false} SendSettles(s: State, t: nat, c: Choice)
    requires Inv(s) && Settled(s) && t < |s.senders|
    ensures Settled(StepSend(s, t, c))
  {
    hide Inv;
    SenderAt(s, t);
    var s' := StepSend(s, t, c);
    assert SettledAt(s.accepted, t, s.senders[t]);
    assert SettledAt(s'.accepted, t, s'.senders[t]);
    forall i | 0 <= i < |s'.senders| && i != t
      ensures SettledAt(s'.accepted, i, s'.senders[i])
    {
      assert SettledAt(s.accepted, i, s.senders[i]);
    }
  }

  /** A place is only ever given to a sender that sleeps. */
  lemma {:induction false} GivenSleeps(s: State, w: Waiter)
    requires Inv(s)
    requires || (s.recv.Advance? && w == s.recv.w)
             || (s.recv.Decide? && Front(Enqueue(s.futex)) != [] && w == Enqueue(s.futex).queues[0][0])
    ensures w.task < |s.senders| && PartOf(s.senders[w.task]).waits.Some?
  {
    hide Inv, Enqueue;
    InvParts(s);
    if s.recv.Advance? {
      InHandSleeps(s, w);
    } else {
      DecideLaws(s, s.recv.slot);
      assert w in s.futex.inbox;
      InboxSleeps(s, w);
    }
  }

  lemma {:induction false} InHandSleeps(s: State, w: Waiter)
    requires Law(s.futex, s.senders, s.recv) && s.recv.Advance? && s.recv.w == w
    ensures w.task < |s.senders| && PartOf(s.senders[w.task]).waits.Some?
  {
    var parts := Parts(s.senders, s.recv);
    RecvParts(s.senders, s.recv, s.recv);
    assert parts[|s.senders|].hand == [w];
    HandSleeps(s.futex, parts, |s.senders|);
    assert parts[w.task] == PartOf(s.senders[w.task]);
  }

  lemma {:induction false} InboxSleeps(s: State, w: Waiter)
    requires Law(s.futex, s.senders, s.recv) && w in s.futex.inbox
    ensures w.task < |s.senders| && PartOf(s.senders[w.task]).waits.Some?
  {
    var parts := Parts(s.senders, s.recv);
    RecvParts(s.senders, s.recv, s.recv);
    InboxWaits(s.futex, parts, w);
    assert w.task < |s.senders| ==> parts[w.task] == PartOf(s.senders[w.task]);
  }

  lemma {:induction false} InboxWaits(f: Futex, parts: seq<Part>, w: Waiter)
    requires Lawful(f, parts) && w in f.inbox
    ensures Waits(parts, w)
  {
    ListedWaits(f, parts, w);
  }

  lemma {:induction false} GiveSettles(s: State, s': State, w: Waiter)
    requires Settled(s) && s'.senders == s.senders && s'.accepted == s.accepted + [w.task]
    requires w.task < |s.senders| && PartOf(s.senders[w.task]).waits.Some?
    ensures Settled(s')
  {
    forall i | 0 <= i < |s'.senders|
      ensures SettledAt(s'.accepted, i, s'.senders[i])
    {
      assert SettledAt(s.accepted, i, s.senders[i]);
    }
  }

  lemma {:induction false} StaySettled(s: State, s': State)
    requires Settled(s) && s'.senders == s.senders && s'.accepted == s.accepted
    ensures Settled(s')
  {
  }

  lemma {:induction false} ServeSettles(s: State, c: Choice)
    requires Inv(s) && Settled(s) && (s.recv.Backfill? || s.recv.Wake?)
    ensures Settled(StepRecv(s, c))
  {
    hide Inv;
    if s.recv.Backfill? {
      BackfillFinds(s, s.recv.slot, s.recv.w);
    } else {
      InvParts(s);
      WakeFinds(s, s.recv.w);
    }
    var s' := StepRecv(s, c);
    forall i | 0 <= i < |s'.senders|
      ensures SettledAt(s'.accepted, i, s'.senders[i])
    {
      assert SettledAt(s.accepted, i, s.senders[i]);
    }
  }

  lemma {:induction false} RecvSettles(s: State, c: Choice)
    requires Inv(s) && Settled(s)
    ensures Settled(StepRecv(s, c))
  {
    hide Inv, Settled, Enqueue;
    var s' := StepRecv(s, c);
    if s.recv.Backfill? || s.recv.Wake? {
      ServeSettles(s, c);
    } else if s'.accepted == s.accepted {
      StaySettled(s, s');
    } else if s.recv.Advance? {
      GivenSleeps(s, s.recv.w);
      GiveSettles(s, s', s.recv.w);
    } else {
      GivenSleeps(s, Enqueue(s.futex).queues[0][0]);
      GiveSettles(s, s', Enqueue(s.futex).queues[0][0]);
    }
  }

  lemma {:induction false} RunSettles(cap: nat, senders: nat, schedule: seq<(Actor, Choice)>)
    requires cap > 0
    ensures Settled(Run(Init(cap, senders), schedule))
    decreases |schedule|
  {
    hide Inv, Step, StepSend, StepRecv;
    if schedule != [] {
      var last := |schedule| - 1;
      RunSettles(cap, senders, schedule[..last]);
      RunKeeps(cap, senders, schedule[..last]);
      var s := Run(Init(cap, senders), schedule[..last]);
      StepSettles(s, schedule[last].0, schedule[last].1);
    }
  }

  lemma {:induction false} StepSettles(s: State, a: Actor, c: Choice)
    requires Inv(s) && Settled(s)
    ensures Settled(Step(s, a, c))
  {
    hide Inv, Settled;
    match a
    case Receiver => RecvSettles(s, c);
    case Send(t) =>
      if t < |s.senders| {
        SendSettles(s, t, c);
      }
  }

  /** A send that returned has had its message accepted; the message of one that gave up
    is accepted exactly if it has left the sender. */
  lemma {:induction false} SendOutcome(cap: nat, senders: nat, schedule: seq<(Actor, Choice)>, t: nat)
    requires cap > 0 && t < |Run(Init(cap, senders), schedule).senders|
    ensures var s := Run(Init(cap, senders), schedule);
            && (s.senders[t].pc.Sent? ==> t in s.accepted)
            && (s.senders[t].pc.Dropped? ==> (t in s.accepted <==> !s.senders[t].full))
  {
    hide Run, Init, SettledAt;
    RunSettles(cap, senders, schedule);
    var s := Run(Init(cap, senders), schedule);
    SettledMeans(s.accepted, t, s.senders[t]);
  }

  lemma {:induction false} SettledMeans(accepted: seq<nat>, t: nat, x: Sender)
    requires SettledAt(accepted, t, x)
    ensures x.pc.Sent? ==> t in accepted
    ensures x.pc.Dropped? ==> (t in accepted <==> !x.full)
  {
  }

  /** No assertion, unwrap or subtraction of the receiver fails and it always finds a
    message in a filled bucket. */
  lemma {:induction false} ReceiverNeverCrashes(cap: nat, senders: nat, schedule: seq<(Actor, Choice)>)
    requires cap > 0
    ensures !Run(Init(cap, senders), schedule).recv.Crashed?
  {
    RunKeeps(cap, senders, schedule);
    InvParts(Run(Init(cap, senders), schedule));
  }

  /** Outside the critical section the word describes the ring exactly, and a blocked
    sender finds it full; so a bucket given to it is the next one to write. */
  predicate ExactRing(s: State)
  {
    var cap := |s.buckets|;
    && cap > 0 && s.word.size <= cap
    && (!Critical(s.recv) ==> s.word.writeHead == (s.recvHead + s.word.size) % cap)
    && (s.futex.inbox != [] || Front(s.futex) != [] || s.recv.Advance? ==> s.word.size == cap)
    && (s.recv.Backfill? ==> s.word.writeHead == Next(s, s.recv.slot))
  }

  lemma {:induction false} RingIsExact(cap: nat, senders: nat, schedule: seq<(Actor, Choice)>)
    requires cap > 0
    ensures ExactRing(Run(Init(cap, senders), schedule))
  {
    RunKeeps(cap, senders, schedule);
    RingWord(Run(Init(cap, senders), schedule));
  }

  lemma {:induction false} RingWord(s: State)
    requires Inv(s)
    ensures ExactRing(s)
  {
    hide Inv, Law;
    InvParts(s);
    var cap := |s.buckets|;
    SumPlace(|s.received|, s.word.size, cap);
    if s.recv.Backfill? {
      BackfillFinds(s, s.recv.slot, s.recv.w);
      NextPlace(|s.accepted| - 1, cap);
    }
  }

  /** No sender is working and the receiver waits: its last poll returned Pending, and
    its waker has not been invoked. */
  predicate AtRest(s: State)
  {
    && s.recv.Pending? && s.recv.poll !in s.rung
    && forall t :: 0 <= t < |s.senders| ==>
         var pc := s.senders[t].pc; pc.Ready? || pc.Sent? || pc.Dropped? || pc.Parked?
  }

  /** The receiver has no lost wakeup: if it is left waiting, then the channel is empty,
    and no sender is blocked. */
  lemma {:induction false} NoLostWakeup(cap: nat, senders: nat, schedule: seq<(Actor, Choice)>)
    requires cap > 0 && AtRest(Run(Init(cap, senders), schedule))
    ensures var s := Run(Init(cap, senders), schedule);
            && s.received == s.accepted && s.word.size == 0
            && forall t :: 0 <= t < |s.senders| ==> s.senders[t].pc != Parked(false)
  {
    hide Run, Init;
    RunKeeps(cap, senders, schedule);
    var s := Run(Init(cap, senders), schedule);
    RestEmpty(s);
    forall t | 0 <= t < |s.senders|
      ensures s.senders[t].pc != Parked(false)
    {
      if s.senders[t].pc == Parked(false) {
        BlockedIsFull(s, t);
      }
    }
  }

  /** A message not delivered yet has somebody to deliver it or to wake the receiver. */
  lemma {:induction false} UnderWay(s: State)
    requires Inv(s) && s.recv.Pending? && |s.received| < |s.accepted|
    ensures var t := s.accepted[|s.received|];
            || s.recv.poll in s.rung || Ringing(s.senders, s.recv.poll)
            || (t < |s.senders| && (s.senders[t].pc.SendFill? || s.senders[t].pc.SendSwap?))
  {
    hide Law;
    var r := |s.received|;
    assert Placed(s.buckets, s.accepted, r, s.senders, s.recv, r);
  }

  lemma {:induction false} RestEmpty(s: State)
    requires Inv(s) && AtRest(s)
    ensures s.received == s.accepted && s.word.size == 0
  {
    hide Law, Ring, People, Bell;
    if |s.received| < |s.accepted| {
      UnderWay(s);
    } else {
      assert s.accepted[..|s.received|] == s.accepted;
    }
  }

  /** A sender sleeps only while the channel is full. */
  lemma {:induction false} BlockedIsFull(s: State, t: nat)
    requires Inv(s) && t < |s.senders| && s.senders[t].pc == Parked(false) && s.recv.Pending?
    ensures s.word.size == |s.buckets| && |s.buckets| > 0
  {
    var parts := Parts(s.senders, s.recv);
    forall i | 0 <= i < |parts|
      ensures HandOf(parts[i]) == multiset{}
    {
      if i < |s.senders| {
        assert parts[i] == PartOf(s.senders[i]);
      }
    }
    GatherEmpty(parts, HandOf);
    assert parts[t] == PartOf(s.senders[t]);
    SleeperFound(s.futex, parts, t);
    InvParts(s);
    hide Inv, Law;
  }

  // ----- attempts that nobody disturbs are answered -----

  const GO := Choice(Proceed, false)

  /** Two turns of somebody with nobody else in between, the second only if they still loop. */
  function Undisturbed(s: State, a: Actor, loops: State -> bool): State
  {
    var s' := Step(s, a, GO);
    if loops(s') then Step(s', a, GO) else s'
  }

  /** A send is given a place if there is one, and otherwise waits at the end of the line. */
  lemma {:induction false} SendIsAnswered(cap: nat, senders: nat, schedule: seq<(Actor, Choice)>, t: nat)
    requires cap > 0
    requires var s := Run(Init(cap, senders), schedule); t < |s.senders| && s.senders[t].pc.SendTry?
    ensures var s := Run(Init(cap, senders), schedule);
            var s' := Undisturbed(s, Send(t), (x: State) => t < |x.senders| && x.senders[t].pc.SendTry?);
            && t < |s'.senders|
            && if |View(s).buffer| < View(s).cap then
                 s'.senders[t].pc.SendFill? && View(s').buffer == View(s).buffer + [t]
               else
                 s'.senders[t].pc == Parked(false) && View(s').line == View(s).line + [Waiter(t, 0)]
  {
    hide Run, Init;
    RunKeeps(cap, senders, schedule);
    SendAlone(Run(Init(cap, senders), schedule), t);
  }

  lemma {:induction false} SendNow(s: State, t: nat)
    requires Inv(s) && t < |s.senders| && s.senders[t].pc.SendTry? && s.senders[t].pc.snap == Current(s)
    ensures var s' := StepSend(s, t, GO);
            && t < |s'.senders|
            && if |View(s).buffer| < View(s).cap then
                 s'.senders[t].pc.SendFill? && View(s').buffer == View(s).buffer + [t]
               else
                 s'.senders[t].pc == Parked(false) && View(s').line == View(s).line + [Waiter(t, 0)]
  {
    hide Inv;
    BufferIsSize(s);
    AppendLine(InHand(s.recv), Front(s.futex), s.futex.inbox, Waiter(t, 0));
    var n := Done(s);
    assert (s.accepted + [t])[n..] == s.accepted[n..] + [t];
  }

  lemma {:induction false} SendReloads(s: State, t: nat)
    requires t < |s.senders| && s.senders[t].pc.SendTry? && s.senders[t].pc.snap != Current(s)
    ensures var s' := StepSend(s, t, GO);
            && t < |s'.senders| && s'.senders[t].pc == SendTry(Current(s')) && Current(s') == Current(s)
            && View(s') == View(s)
  {
  }

  lemma {:induction false} SendAlone(s: State, t: nat)
    requires Inv(s) && t < |s.senders| && s.senders[t].pc.SendTry?
    ensures var s' := Undisturbed(s, Send(t), (x: State) => t < |x.senders| && x.senders[t].pc.SendTry?);
            && t < |s'.senders|
            && if |View(s).buffer| < View(s).cap then
                 s'.senders[t].pc.SendFill? && View(s').buffer == View(s).buffer + [t]
               else
                 s'.senders[t].pc == Parked(false) && View(s').line == View(s).line + [Waiter(t, 0)]
  {
    hide Inv, StepSend, View;
    if s.senders[t].pc.snap == Current(s) {
      SendNow(s, t);
    } else {
      SendReloads(s, t);
      StepKeeps(s, Send(t), GO);
      SendNow(StepSend(s, t, GO), t);
    }
  }

  /** The place of an emptied bucket goes to the first in line, whose message is accepted
    next, and is free if nobody is. */
  lemma {:induction false} PlaceIsGiven(cap: nat, senders: nat, schedule: seq<(Actor, Choice)>)
    requires cap > 0
    requires var s := Run(Init(cap, senders), schedule); s.recv.Advance? || s.recv.Decide?
    ensures var s := Run(Init(cap, senders), schedule);
            var s' := Undisturbed(s, Receiver, (x: State) => x.recv.Advance? || x.recv.Decide?);
            if View(s).line != [] then
              s'.recv.Backfill? && s'.recv.w == View(s).line[0] && s'.accepted == s.accepted + [s'.recv.w.task]
            else
              s'.recv.Return? && s'.accepted == s.accepted && s'.word.size + 1 == s.word.size
  {
    hide Run, Init;
    RunKeeps(cap, senders, schedule);
    if Run(Init(cap, senders), schedule).recv.Advance? {
      AdvanceAlone(Run(Init(cap, senders), schedule));
    } else {
      DecideAlone(Run(Init(cap, senders), schedule));
    }
  }

  lemma {:induction false} AdvanceAlone(s: State)
    requires Inv(s) && s.recv.Advance?
    ensures var s' := Undisturbed(s, Receiver, (x: State) => x.recv.Advance? || x.recv.Decide?);
            && View(s).line != [] && s'.recv.Backfill? && s'.recv.w == View(s).line[0]
            && s'.accepted == s.accepted + [s'.recv.w.task]
  {
    hide Inv, Enqueue;
    AdvanceFull(s);
  }

  lemma {:induction false} AdvanceFull(s: State)
    requires Inv(s) && s.recv.Advance?
    ensures s.recv.snap.word.size == s.word.size == |s.buckets|
  {
    hide Law, Ring, People, Distinct, Bell;
  }

  lemma {:induction false} DecideNow(s: State)
    requires Inv(s) && s.recv.Decide? && s.recv.snap == Current(s)
    ensures var s' := StepRecv(s, GO);
            if View(s).line != [] then
              s'.recv.Backfill? && s'.recv.w == View(s).line[0] && s'.accepted == s.accepted + [s'.recv.w.task]
            else
              s'.recv.Return? && s'.accepted == s.accepted && s'.word.size + 1 == s.word.size
  {
    hide Inv, Enqueue;
    DecideLaws(s, s.recv.slot);
    DecideReady(s);
  }

  lemma {:induction false} DecideReady(s: State)
    requires Inv(s) && s.recv.Decide?
    ensures Front(s.futex) == [] && s.recv.snap.word.size > 0
    ensures s.recv.snap.inbox.Some? ==> s.recv.snap.word.size == |s.buckets|
  {
    hide Law, Ring, People, Distinct, Bell;
  }

  lemma {:induction false} DecideReloads(s: State)
    requires Inv(s) && s.recv.Decide? && s.recv.snap != Current(s)
    ensures var s' := StepRecv(s, GO);
            && s'.recv.Decide? && s'.recv.snap == Current(s') == Current(s) && View(s').line == View(s).line
            && s'.accepted == s.accepted && s'.word == s.word
  {
    hide Inv, Enqueue;
    DecideReady(s);
  }

  lemma {:induction false} DecideAlone(s: State)
    requires Inv(s) && s.recv.Decide?
    ensures var s' := Undisturbed(s, Receiver, (x: State) => x.recv.Advance? || x.recv.Decide?);
            if View(s).line != [] then
              s'.recv.Backfill? && s'.recv.w == View(s).line[0] && s'.accepted == s.accepted + [s'.recv.w.task]
            else
              s'.recv.Return? && s'.accepted == s.accepted && s'.word.size + 1 == s.word.size
  {
    hide Inv, StepRecv, View;
    if s.recv.snap == Current(s) {
      DecideNow(s);
    } else {
      DecideReloads(s);
      StepKeeps(s, Receiver, GO);
      DecideNow(StepRecv(s, GO));
    }
  }

  // ----- a poll finds what is there -----

  /** The receiver's next turns, with nobody else in between. */
  function Turns(s: State, n: nat): State
    decreases n
  {
    if n == 0 then s else Turns(StepRecv(s, GO), n - 1)
  }

  /** A poll takes the next message in the order of acceptance if it is in its bucket, and
    otherwise leaves its waker and waits. */
  lemma {:induction false} PollIsAnswered(cap: nat, senders: nat, schedule: seq<(Actor, Choice)>)
    requires cap > 0 && Run(Init(cap, senders), schedule).recv.Look?
    ensures var s := Run(Init(cap, senders), schedule);
            if Filled(s) then
              && |s.received| < |s.accepted|
              && Turns(s, 2).recv.TakeGuard? && Turns(s, 2).received == s.received + [s.accepted[|s.received|]]
            else
              && Turns(s, 3).recv == Pending(s.polls) && Turns(s, 3).slot == Some(s.polls)
              && Turns(s, 3).received == s.received
  {
    hide Run, Init;
    var s := Run(Init(cap, senders), schedule);
    RunKeeps(cap, senders, schedule);
    if Filled(s) {
      StepKeeps(s, Receiver, GO);
      TakesNext(StepRecv(s, GO));
      LookConsumes(s);
    } else {
      LookRegisters(s);
    }
  }

  lemma {:induction false} TakesNext(s: State)
    requires Inv(s) && s.recv.Consume?
    ensures var s' := StepRecv(s, GO);
            && |s.received| < |s.accepted|
            && s'.recv.TakeGuard? && s'.received == s.received + [s.accepted[|s.received|]]
  {
    hide Inv;
    ConsumeFinds(s);
  }

  lemma {:induction false} LookConsumes(s: State)
    requires s.recv.Look? && Filled(s)
    ensures StepRecv(s, GO) == s.(recv := Consume)
    ensures Turns(s, 2) == StepRecv(s.(recv := Consume), GO)
  {
    assert Turns(StepRecv(StepRecv(s, GO), GO), 0) == StepRecv(StepRecv(s, GO), GO);
  }

  lemma {:induction false} LookRegisters(s: State)
    requires s.recv.Look? && !Filled(s)
    ensures Turns(s, 3).recv == Pending(s.polls) && Turns(s, 3).slot == Some(s.polls)
    ensures Turns(s, 3).received == s.received
  {
    var a := StepRecv(s, GO);
    var b := StepRecv(a, GO);
    assert Turns(s, 3) == Turns(a, 2) == Turns(b, 1) == Turns(StepRecv(b, GO), 0);
  }
}
