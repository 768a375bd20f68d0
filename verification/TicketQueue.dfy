/** The ticketed wait queue as a transition system.

  Every wait takes a ticket of the current generation and every notification a range of
  tickets; both meet in the bucket the ticket falls on. Buckets are used round after
  round, and a collision closes the generation and opens one of twice the capacity.
  One step of a task is one access to shared memory: a load, a weak compare-and-swap
  (which may fail spuriously), a swap, or invoking a waker.
 */
module TicketQueue {
  import opened Options

  /** A waker is named by the poll that cloned it. */
  datatype Bucket =
    | Empty(ticket: nat)
    | Woken(ticket: nat)
    | Waiting(waker: nat)
    | Waking
    | Tombstone

  /** done and applied are histories: how many tickets of this bucket are finished, and
    how many notifications it has received. */
  datatype Cell = Cell(bucket: Bucket, done: nat, applied: nat)

  type Generation = seq<Cell>

  datatype Atom = Atom(gen: nat, waits: nat, notifies: nat)

  /** from and to: the tickets a notifier still has to serve. An expansion started by a
    notifier remembers what that notifier leaves behind; this is history. */
  datatype Pc =
    | Idle
    // notify()
    | NotifyTry(add: nat, snap: Atom)
    | NotifyLoad(gen: nat, from: nat, to: nat)
    | NotifyCas(gen: nat, from: nat, to: nat, seen: Bucket)
    | NotifyWake(gen: nat, from: nat, to: nat, waker: nat)
    // expand()
    | ExpandLock(gen: nat, from: nat, to: nat)
    | Sweep(gen: nat, from: nat, to: nat, next: nat)
    | SweepWake(gen: nat, from: nat, to: nat, next: nat, waker: nat)
    | Publish(gen: nat)
    // poll_enter()
    | EnterTry(snap: Atom)
    | EnterCas(gen: nat, ticket: nat, waker: nat, seen: Bucket)
    | EnterCheck(gen: nat, ticket: nat, waker: nat)
    // poll_waiting()
    | Parked(gen: nat, ticket: nat, waker: nat)
    | PollLoad(gen: nat, ticket: nat, waker: nat, renewed: nat)
    | PollCas(gen: nat, ticket: nat, waker: nat, renewed: nat, seen: Bucket)
    // code that must not be reached
    | Crashed

  /** newest: the generation last recorded under the mutex. wakers: how many have been
    cloned. rung is a history: the wakers that have been invoked. */
  datatype State = State(
    gens: seq<Generation>,
    atom: Atom,
    newest: nat,
    mutex: Option<nat>,
    pcs: seq<Pc>,
    wakers: nat,
    rung: set<nat>)

  datatype Op = StartWait | StartNotify(add: nat)

  /** op: what an idle task turns to. holds: what the condition of a wait evaluates to. */
  datatype Choice = Choice(op: Op, holds: bool, spurious: bool)

  function NewGeneration(cap: nat): Generation
  {
    seq(cap, i requires 0 <= i < cap => Cell(Empty(i), 0, 0))
  }

  function Init(cap: nat, tasks: nat): State
  {
    State([NewGeneration(cap)], Atom(0, 0, 0), 0, None, seq(tasks, _ => Idle), 0, {})
  }

  function Goto(s: State, t: nat, pc: Pc): State
    requires t < |s.pcs|
  {
    s.(pcs := s.pcs[t := pc])
  }

  predicate Exists(s: State, gen: nat)
  {
    gen < |s.gens| && |s.gens[gen]| > 0
  }

  function Place(s: State, gen: nat, ticket: nat): nat
    requires Exists(s, gen)
  {
    ticket % |s.gens[gen]|
  }

  function At(s: State, gen: nat, ticket: nat): Cell
    requires Exists(s, gen)
  {
    s.gens[gen][Place(s, gen, ticket)]
  }

  function Put(s: State, gen: nat, ticket: nat, cell: Cell): State
    requires Exists(s, gen)
  {
    s.(gens := s.gens[gen := s.gens[gen][Place(s, gen, ticket) := cell]])
  }

  // ----- notify -----

  function Min(a: nat, b: nat): nat
  {
    if a < b then a else b
  }

  function NextTicket(gen: nat, from: nat, to: nat): Pc
  {
    if from < to then NotifyLoad(gen, from, to) else Idle
  }

  /** A notifier serves the tickets between the old and the new count, never more than
    have been taken. */
  function StepNotifyTry(s: State, t: nat, c: Choice, add: nat, snap: Atom): State
    requires t < |s.pcs|
  {
    var notifies := Min(snap.notifies + add, snap.waits);
    if c.spurious || snap != s.atom then Goto(s, t, NotifyTry(add, s.atom))
    else Goto(s, t, NextTicket(snap.gen, snap.notifies, notifies)).(atom := snap.(notifies := notifies))
  }

  function StepNotifyCas(s: State, t: nat, c: Choice, gen: nat, from: nat, to: nat, seen: Bucket): State
    requires t < |s.pcs| && Exists(s, gen)
  {
    var cell := At(s, gen, from);
    var served := Cell(if seen.Waiting? then Waking else Woken(from), cell.done, cell.applied + 1);
    match seen
    case Waiting(waker) =>
      if c.spurious || seen != cell.bucket then Goto(s, t, NotifyCas(gen, from, to, cell.bucket))
      else Put(Goto(s, t, NotifyWake(gen, from, to, waker)), gen, from, served)
    case Empty(ticket) =>
      if ticket != from then Goto(s, t, ExpandLock(gen, from, to))
      else if c.spurious || seen != cell.bucket then Goto(s, t, NotifyCas(gen, from, to, cell.bucket))
      else Put(Goto(s, t, NextTicket(gen, from + 1, to)), gen, from, served)
    case _ => Goto(s, t, ExpandLock(gen, from, to))
  }

  // ----- expand -----

  /** Only the newest generation is closed; whoever comes later finds it closed. */
  function StepExpandLock(s: State, t: nat, gen: nat, from: nat, to: nat): State
    requires t < |s.pcs|
  {
    if s.mutex.Some? then s
    else if s.newest == gen then Goto(s, t, Sweep(gen, from, to, 0)).(mutex := Some(t))
    else Goto(s, t, Idle)
  }

  /** Bucket by bucket the generation is closed; then the next one is opened. */
  function StepSweep(s: State, t: nat, gen: nat, from: nat, to: nat, next: nat): State
    requires t < |s.pcs| && Exists(s, gen)
  {
    if next < |s.gens[gen]| then
      var cell := s.gens[gen][next];
      Put(Goto(s, t, if cell.bucket.Waiting? then SweepWake(gen, from, to, next, cell.bucket.waker)
                     else Sweep(gen, from, to, next + 1)),
          gen, next, cell.(bucket := Tombstone))
    else
      Goto(s, t, Publish(gen)).(gens := s.gens + [NewGeneration(2 * |s.gens[gen]|)], atom := Atom(|s.gens|, 0, 0))
  }

  // ----- waiting -----

  function StepEnterTry(s: State, t: nat, c: Choice, snap: Atom): State
    requires t < |s.pcs|
  {
    if c.spurious || snap != s.atom then Goto(s, t, EnterTry(s.atom))
    else Goto(s, t, EnterCas(snap.gen, snap.waits, s.wakers, Empty(snap.waits))).(
           atom := snap.(waits := snap.waits + 1), wakers := s.wakers + 1)
  }

  function StepEnterCas(s: State, t: nat, c: Choice, gen: nat, ticket: nat, waker: nat, seen: Bucket): State
    requires t < |s.pcs| && Exists(s, gen)
  {
    var cell := At(s, gen, ticket);
    if seen != Empty(ticket) && seen != Woken(ticket) then Goto(s, t, ExpandLock(gen, 0, 0))
    else if c.spurious || seen != cell.bucket then Goto(s, t, EnterCas(gen, ticket, waker, cell.bucket))
    else if seen.Empty? then
      Put(Goto(s, t, EnterCheck(gen, ticket, waker)), gen, ticket, cell.(bucket := Waiting(waker)))
    else
      Put(Goto(s, t, Idle), gen, ticket,
          Cell(Empty(ticket + |s.gens[gen]|), cell.done + 1, cell.applied))
  }

  function StepPollCas(s: State, t: nat, c: Choice, gen: nat, ticket: nat, waker: nat, renewed: nat,
          seen: Bucket): State
    requires t < |s.pcs| && Exists(s, gen)
  {
    var cell := At(s, gen, ticket);
    match seen
    case Waiting(_) =>
      if c.spurious || seen != cell.bucket then Goto(s, t, PollCas(gen, ticket, waker, renewed, cell.bucket))
      else Put(Goto(s, t, Parked(gen, ticket, renewed)), gen, ticket, cell.(bucket := Waiting(renewed)))
    case Waking =>
      if c.spurious || seen != cell.bucket then Goto(s, t, PollCas(gen, ticket, waker, renewed, cell.bucket))
      else Put(Goto(s, t, Idle), gen, ticket, Cell(Empty(ticket + |s.gens[gen]|), cell.done + 1, cell.applied))
    case Tombstone => Goto(s, t, ExpandLock(gen, 0, 0))
    case _ => Goto(s, t, Crashed)
  }

  /** The generation a program point works on. */
  function GenOf(pc: Pc): Option<nat>
  {
    match pc
    case Idle | NotifyTry(_, _) | EnterTry(_) | Crashed => None
    case _ => Some(pc.gen)
  }

  /** One step of task t. A step that is not enabled leaves the state as it is. */
  function Step(s: State, t: nat, c: Choice): State
    requires t < |s.pcs|
  {
    var pc := s.pcs[t];
    if GenOf(pc).Some? && !Exists(s, GenOf(pc).value) then Goto(s, t, Crashed)
    else match pc
      case Idle =>
        (match c.op
         case StartWait => Goto(s, t, EnterTry(s.atom))
         case StartNotify(add) => Goto(s, t, NotifyTry(add, s.atom)))
      case NotifyTry(add, snap) => StepNotifyTry(s, t, c, add, snap)
      case NotifyLoad(gen, from, to) => Goto(s, t, NotifyCas(gen, from, to, At(s, gen, from).bucket))
      case NotifyCas(gen, from, to, seen) => StepNotifyCas(s, t, c, gen, from, to, seen)
      case NotifyWake(gen, from, to, waker) =>
        Goto(s, t, NextTicket(gen, from + 1, to)).(rung := s.rung + {waker})
      case ExpandLock(gen, from, to) => StepExpandLock(s, t, gen, from, to)
      case Sweep(gen, from, to, next) => StepSweep(s, t, gen, from, to, next)
      case SweepWake(gen, from, to, next, waker) =>
        Goto(s, t, Sweep(gen, from, to, next + 1)).(rung := s.rung + {waker})
      case Publish(gen) => Goto(s, t, Idle).(newest := gen + 1, mutex := None)
      case EnterTry(snap) => StepEnterTry(s, t, c, snap)
      case EnterCas(gen, ticket, waker, seen) => StepEnterCas(s, t, c, gen, ticket, waker, seen)
      case EnterCheck(gen, ticket, waker) =>
        // a wait whose condition fails notifies one ticket and leaves its own behind
        Goto(s, t, if c.holds then Parked(gen, ticket, waker) else NotifyTry(1, s.atom))
      case Parked(gen, ticket, waker) => Goto(s, t, PollLoad(gen, ticket, waker, s.wakers)).(wakers := s.wakers + 1)
      case PollLoad(gen, ticket, waker, renewed) =>
        Goto(s, t, PollCas(gen, ticket, waker, renewed, At(s, gen, ticket).bucket))
      case PollCas(gen, ticket, waker, renewed, seen) => StepPollCas(s, t, c, gen, ticket, waker, renewed, seen)
      case Crashed => s
  }

  /** A run: any interleaving of any tasks with any choices. */
  function Run(s: State, schedule: seq<(nat, Choice)>): State
    decreases |schedule|
  {
    if schedule == [] then s
    else
      var last := |schedule| - 1;
      var p := Run(s, schedule[..last]);
      var (t, c) := schedule[last];
      if t < |p.pcs| then Step(p, t, c) else p
  }
}
