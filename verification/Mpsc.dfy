/** The bounded channel as a transition system: any number of sends and one receiver.

  Every send call is a sender of its own and its index stands for its message. One
  step is one access to shared memory, as in RwLock. A bucket belongs to the sender
  that was given its position, or to the receiver, so writing its data and raising its
  filled flag are one step.
 */
module Mpsc {
  import opened Futex
  import opened Options

  /** The packed word: the next bucket to write and the number of messages. */
  datatype Word = Word(writeHead: nat, size: nat)

  datatype Bucket = Bucket(filled: bool, data: Option<nat>)

  /** woken says whether the waker slot of the sender's waiter is Done; pos is a history,
    the position of the message in the order of acceptance. */
  datatype Pc =
    | Ready
    | SendTry(snap: Snap<Word>)
    | SendFill(slot: nat, pos: nat)
    | SendSwap
    | SendRing(poll: nat)
    | Sent
    | Parked(woken: bool)
    // dropping a wait future
    | CancelWait(woken: bool)
    | CancelLocked(woken: bool)
    | CancelFlip(woken: bool, snap: Snap<Word>)
    | CancelCheck(woken: bool)
    | Dropped
    | Lost

  /** full: the message has not been taken out of the sender yet. */
  datatype Sender = Sender(pc: Pc, full: bool)

  datatype Recv =
    | Rest
    | Look
    | Register
    | Recheck(poll: nat)
    | Unregister
    | Pending(poll: nat)
    | Consume
    // a bucket has been emptied and its place not been given away yet
    | TakeGuard(slot: nat)
    | TakeQueue(slot: nat)
    | PopFirst(slot: nat)
    | Advance(slot: nat, snap: Snap<Word>, w: Waiter)
    | Decide(slot: nat, snap: Snap<Word>)
    // its place belongs to a blocked sender or is free
    | Backfill(slot: nat, w: Waiter)
    | Wake(w: Waiter)
    | Return
    | Leave
    // an assertion, unwrap or subtraction of the code has failed
    | Crashed

  /** slot: the receiver's waker registration, by number of the poll that registered it.
    rung is a history: the polls whose waker has been invoked. accepted and received are
    histories: the messages in the order in which they were given a place and in which
    they were taken out. */
  datatype State = State(
    buckets: seq<Bucket>,
    word: Word,
    futex: Futex,
    slot: Option<nat>,
    polls: nat,
    rung: set<nat>,
    recvHead: nat,
    recv: Recv,
    senders: seq<Sender>,
    accepted: seq<nat>,
    received: seq<nat>)

  datatype Op = Proceed | Cancel

  datatype Choice = Choice(op: Op, spurious: bool)

  /** Who takes a step. */
  datatype Actor = Receiver | Send(sender: nat)

  function Init(cap: nat, senders: nat): State
  {
    State(seq(cap, _ => Bucket(false, None)), Word(0, 0), New(1), None, 0, {}, 0, Rest,
          seq(senders, _ => Sender(Ready, true)), [], [])
  }

  function Current(s: State): Snap<Word>
  {
    Snap(s.word, Top(s.futex))
  }

  predicate Swaps(s: State, snap: Snap<Word>, c: Choice)
  {
    !c.spurious && snap == Current(s)
  }

  /** Positions go round the buckets. */
  function Next(s: State, head: nat): nat
  {
    if |s.buckets| == 0 then 0 else (head + 1) % |s.buckets|
  }

  // ----- send -----

  function Goto(s: State, t: nat, pc: Pc): State
    requires t < |s.senders|
  {
    s.(senders := s.senders[t := s.senders[t].(pc := pc)])
  }

  function StepSendTry(s: State, t: nat, c: Choice, snap: Snap<Word>): State
    requires t < |s.senders|
  {
    if !Swaps(s, snap, c) then Goto(s, t, SendTry(Current(s)))
    else if snap.word.size < |s.buckets| then
      Goto(s, t, SendFill(snap.word.writeHead, |s.accepted|)).(
        word := Word(Next(s, snap.word.writeHead), snap.word.size + 1), accepted := s.accepted + [t])
    else
      Goto(s, t, Parked(false)).(futex := Push(s.futex, Waiter(t, 0)))
  }

  /** The message moves from the sender to its bucket. */
  function StepSendFill(s: State, t: nat, slot: nat): State
    requires t < |s.senders|
  {
    if slot < |s.buckets| && s.senders[t].full then
      s.(senders := s.senders[t := Sender(SendSwap, false)], buckets := s.buckets[slot := Bucket(true, Some(t))])
    else Goto(s, t, Lost)
  }

  function StepSendSwap(s: State, t: nat): State
    requires t < |s.senders|
  {
    Goto(s, t, if s.slot.Some? then SendRing(s.slot.value) else Sent).(slot := None)
  }

  function StepCancelFlip(s: State, t: nat, c: Choice, woken: bool, snap: Snap<Word>): State
    requires t < |s.senders|
  {
    if snap.inbox.None? then
      Goto(s, t, CancelCheck(woken)).(futex := Include(Unlink(s.futex, Waiter(t, 0))))
    else if Swaps(s, snap, c) then
      Goto(s, t, CancelCheck(woken)).(futex := Include(Unlink(Enqueue(s.futex), Waiter(t, 0))))
    else Goto(s, t, CancelFlip(woken, Current(s)))
  }

  /** One step of sender t. A step that is not enabled leaves the state as it is. */
  function StepSend(s: State, t: nat, c: Choice): State
    requires t < |s.senders|
  {
    match s.senders[t].pc
    case Ready => Goto(s, t, SendTry(Current(s)))
    case SendTry(snap) => StepSendTry(s, t, c, snap)
    case SendFill(slot, _) => StepSendFill(s, t, slot)
    case SendSwap => StepSendSwap(s, t)
    case SendRing(poll) => Goto(s, t, Sent).(rung := s.rung + {poll})
    case Sent => s
    case Parked(woken) =>
      if c.op.Cancel? then Goto(s, t, CancelWait(woken)) else if woken then Goto(s, t, Sent) else s
    case CancelWait(woken) =>
      if s.futex.exclusive || s.futex.guards > 0 then s
      else Goto(s, t, CancelLocked(woken)).(futex := Exclude(s.futex))
    case CancelLocked(woken) => Goto(s, t, CancelFlip(woken, Current(s)))
    case CancelFlip(woken, snap) => StepCancelFlip(s, t, c, woken, snap)
    case CancelCheck(woken) => Goto(s, t, if woken && s.senders[t].full then Lost else Dropped)
    case Dropped => s
    case Lost => s
  }

  // ----- recv -----

  predicate Filled(s: State)
  {
    s.recvHead < |s.buckets| && s.buckets[s.recvHead].filled
  }

  function StepConsume(s: State): State
  {
    if s.recvHead < |s.buckets| && s.buckets[s.recvHead].data.Some? then
      s.(recv := TakeGuard(s.recvHead), recvHead := Next(s, s.recvHead),
         buckets := s.buckets[s.recvHead := Bucket(false, None)],
         received := s.received + [s.buckets[s.recvHead].data.value])
    else s.(recv := Crashed)
  }

  /** The place of the emptied bucket is given to the popped sender, or to the first one
    found in the inbox, or is free. */
  function StepPop(s: State, slot: nat): State
  {
    if Front(s.futex) != [] then
      s.(recv := Advance(slot, Current(s), s.futex.queues[0][0]), futex := Pop(s.futex, 0, 1))
    else s.(recv := Decide(slot, Current(s)))
  }

  function StepAdvance(s: State, c: Choice, slot: nat, snap: Snap<Word>, w: Waiter): State
  {
    if snap.word.size != |s.buckets| then s.(recv := Crashed)
    else if Swaps(s, snap, c) then
      s.(recv := Backfill(slot, w), word := Word(Next(s, snap.word.writeHead), snap.word.size),
         accepted := s.accepted + [w.task])
    else s.(recv := Advance(slot, Current(s), w))
  }

  function StepDecide(s: State, c: Choice, slot: nat, snap: Snap<Word>): State
  {
    if snap.inbox.Some? then
      if snap.word.size != |s.buckets| then s.(recv := Crashed)
      else if !Swaps(s, snap, c) then s.(recv := Decide(slot, Current(s)))
      else
        var e := Enqueue(s.futex);
        var s' := s.(word := Word(Next(s, snap.word.writeHead), snap.word.size));
        if Front(e) == [] then s'.(recv := Return, futex := e)
        else s'.(recv := Backfill(slot, e.queues[0][0]), futex := Pop(e, 0, 1),
                 accepted := s.accepted + [e.queues[0][0].task])
    else if snap.word.size == 0 then s.(recv := Crashed)
    else if !Swaps(s, snap, c) then s.(recv := Decide(slot, Current(s)))
    else
      var e := Enqueue(s.futex);
      var s' := s.(word := Word(snap.word.writeHead, snap.word.size - 1));
      if Front(e) == [] then s'.(recv := Return, futex := e)
      else s'.(recv := Backfill(slot, e.queues[0][0]), futex := Pop(e, 0, 1),
               accepted := s.accepted + [e.queues[0][0].task])
  }

  /** The blocked sender's message moves to the bucket. */
  function StepBackfill(s: State, slot: nat, w: Waiter): State
  {
    if slot < |s.buckets| && w.task < |s.senders| && s.senders[w.task].full then
      s.(recv := Wake(w), buckets := s.buckets[slot := Bucket(true, Some(w.task))],
         senders := s.senders[w.task := s.senders[w.task].(full := false)])
    else s.(recv := Crashed)
  }

  /** The sender's program counter once its slot is swapped to Done. */
  function Woken(pc: Pc): Option<Pc>
  {
    match pc
    case Parked(false) => Some(Parked(true))
    case CancelWait(false) => Some(CancelWait(true))
    case CancelLocked(false) => Some(CancelLocked(true))
    case CancelFlip(false, snap) => Some(CancelFlip(true, snap))
    case _ => None
  }

  function StepWake(s: State, w: Waiter): State
  {
    if w.task < |s.senders| && Woken(s.senders[w.task].pc).Some? then
      Goto(s, w.task, Woken(s.senders[w.task].pc).value).(recv := Return)
    else s.(recv := Crashed)
  }

  /** One step of the receiver. */
  function StepRecv(s: State, c: Choice): State
  {
    match s.recv
    case Rest => s.(recv := Look)
    case Look => s.(recv := if Filled(s) then Consume else Register)
    case Register => s.(recv := Recheck(s.polls), slot := Some(s.polls), polls := s.polls + 1)
    case Recheck(poll) => s.(recv := if Filled(s) then Unregister else Pending(poll))
    case Unregister => s.(recv := Consume, slot := None)
    case Pending(_) => s.(recv := Look)
    case Consume => StepConsume(s)
    case TakeGuard(slot) => if s.futex.exclusive then s else s.(recv := TakeQueue(slot), futex := Share(s.futex))
    case TakeQueue(slot) =>
      if s.futex.borrowed then s.(recv := Crashed) else s.(recv := PopFirst(slot), futex := TakeBorrow(s.futex))
    case PopFirst(slot) => StepPop(s, slot)
    case Advance(slot, snap, w) => StepAdvance(s, c, slot, snap, w)
    case Decide(slot, snap) => StepDecide(s, c, slot, snap)
    case Backfill(slot, w) => StepBackfill(s, slot, w)
    case Wake(w) => StepWake(s, w)
    case Return => s.(recv := Leave, futex := DropBorrow(s.futex))
    case Leave => s.(recv := Rest, futex := Unshare(s.futex))
    case Crashed => s
  }

  function Step(s: State, a: Actor, c: Choice): State
  {
    match a
    case Receiver => StepRecv(s, c)
    case Send(t) => if t < |s.senders| then StepSend(s, t, c) else s
  }

  /** A run: any interleaving of sends and receives with any choices. */
  function Run(s: State, schedule: seq<(Actor, Choice)>): State
    decreases |schedule|
  {
    if schedule == [] then s
    else
      var last := |schedule| - 1;
      var (a, c) := schedule[last];
      Step(Run(s, schedule[..last]), a, c)
  }
}
