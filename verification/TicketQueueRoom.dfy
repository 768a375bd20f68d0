/** The ticketed wait queue closes a generation for want of room only: not before it has
  handed out more tickets than it has buckets.
 */
module TicketQueueRoom {
  import opened Options
  import opened Places
  import opened TicketQueue
  import opened TicketQueueCalls
  import opened TicketQueueProof

  /** The task is about to close the generation, or does. */
  predicate Closes(pc: Pc, gen: nat)
  {
    (pc.ExpandLock? || pc.Sweep? || pc.SweepWake?) && pc.gen == gen
  }

  /** The bucket waits for the ticket, or for its notification. */
  predicate Untouched(bucket: Bucket, ticket: nat)
  {
    bucket == Empty(ticket) || bucket == Woken(ticket)
  }

  /** In its first round nobody finds a bucket in another round. */
  predicate RoomyPc(cells: Generation, atom: Atom, pc: Pc)
    requires |cells| > 0
  {
    GenOf(pc) == Some(atom.gen) ==>
      match pc
      case NotifyLoad(_, _, to) => to <= atom.notifies
      case NotifyCas(_, from, to, seen) => to <= atom.notifies && (seen == Empty(from) || seen.Waiting?)
      case NotifyWake(_, _, to, _) => to <= atom.notifies
      case EnterCas(_, ticket, _, seen) =>
        Untouched(seen, ticket) && Untouched(cells[ticket % |cells|].bucket, ticket)
      case PollCas(_, _, _, _, seen) => !seen.Tombstone?
      case _ => !Closes(pc, atom.gen)
  }

  predicate FirstRound(s: State)
  {
    s.atom.gen < |s.gens| && s.atom.waits <= |s.gens[s.atom.gen]|
  }

  /** No ticket has fallen on the bucket yet. */
  predicate Fresh(cells: Generation, waits: nat)
  {
    forall r :: waits <= r < |cells| ==> cells[r].bucket == Empty(r)
  }

  predicate Roomy(s: State)
  {
    FirstRound(s) && |s.gens[s.atom.gen]| > 0 ==>
      && (forall i :: 0 <= i < |s.pcs| ==> RoomyPc(s.gens[s.atom.gen], s.atom, s.pcs[i]))
      && Fresh(s.gens[s.atom.gen], s.atom.waits)
  }

  // ----- what a notifier finds in the first round -----

  lemma {:induction false} NobodySweeps(s: State, r: nat)
    requires Inv(s) && FirstRound(s) && Roomy(s) && r < |s.gens[s.atom.gen]|
    ensures !s.gens[s.atom.gen][r].bucket.Tombstone?
  {
    hide Cells, Past, Counted, Tickets, Waiters, Sound;
    if s.mutex.Some? && s.mutex.value < |s.pcs| {
      LockAt(s, s.mutex.value);
      assert RoomyPc(s.gens[s.atom.gen], s.atom, s.pcs[s.mutex.value]);
    }
  }

  lemma {:induction false} PendingAt(pcs: seq<Pc>, t: nat, gen: nat, r: nat, cap: nat)
    requires cap > 0 && t < |pcs|
    ensures Pending(pcs, gen, r, cap) >= Debt(pcs[t], gen, r, cap)
  {
    if t > 0 {
      PendingAt(pcs[1..], t - 1, gen, r, cap);
    }
  }

  /** The ticket a notifier comes to has not been notified before. */
  lemma {:induction false} NotAppliedYet(s: State, t: nat)
    requires Inv(s) && FirstRound(s) && t < |s.pcs| && (s.pcs[t].NotifyLoad? || s.pcs[t].NotifyCas?)
    requires s.pcs[t].gen == s.atom.gen && s.pcs[t].to <= s.atom.notifies
    ensures var from := s.pcs[t].from;
            && from < |s.gens[s.atom.gen]| && from % |s.gens[s.atom.gen]| == from
            && s.gens[s.atom.gen][from].applied == 0
  {
    hide Cells, Past, Locking, ClosedUpTo, Tickets, Waiters;
    var cells := s.gens[s.atom.gen];
    var from, to := s.pcs[t].from, s.pcs[t].to;
    assert PcSound(s.pcs[t]);
    InRange(from, |cells|);
    assert CountedAt(cells, s.atom, s.pcs, from);
    CountUpTo(s.atom.notifies, from, 1, |cells|);
    PendingAt(s.pcs, t, s.atom.gen, from, |cells|);
  }

  lemma {:induction false} NotifierFinds(s: State, t: nat)
    requires Inv(s) && FirstRound(s) && Roomy(s) && t < |s.pcs| && (s.pcs[t].NotifyLoad? || s.pcs[t].NotifyCas?)
    requires s.pcs[t].gen == s.atom.gen
    ensures Exists(s, s.atom.gen) && s.pcs[t].from < |s.gens[s.atom.gen]|
    ensures var bucket := At(s, s.atom.gen, s.pcs[t].from).bucket; bucket == Empty(s.pcs[t].from) || bucket.Waiting?
  {
    hide Inv;
    Exist(s, t);
    assert RoomyPc(s.gens[s.atom.gen], s.atom, s.pcs[t]);
    NotAppliedYet(s, t);
    var r := s.pcs[t].from;
    CellAt(s, s.atom.gen, r);
    NobodySweeps(s, r);
  }

  // ----- every step keeps it -----

  /** The other tasks are as they were: the one bucket that changes, if any, is of no ticket
    that a task has yet to put its waker in. */
  predicate Spares(cells: Generation, cells': Generation, atom: Atom, atom': Atom, pc: Pc)
    requires |cells'| == |cells| > 0
  {
    && atom'.gen == atom.gen && atom.notifies <= atom'.notifies
    && (GenOf(pc) == Some(atom.gen) && pc.EnterCas? && Untouched(cells[pc.ticket % |cells|].bucket, pc.ticket) ==>
          Untouched(cells'[pc.ticket % |cells|].bucket, pc.ticket))
  }

  lemma {:induction false} Spared(cells: Generation, cells': Generation, atom: Atom, atom': Atom, pc: Pc)
    requires |cells'| == |cells| > 0 && RoomyPc(cells, atom, pc) && Spares(cells, cells', atom, atom', pc)
    ensures RoomyPc(cells', atom', pc)
  {
  }

  lemma {:induction false} RoomyFollows(s: State, s': State, t: nat)
    requires Roomy(s) && FirstRound(s) && t < |s.pcs| && Moved(s, s', t)
    requires s'.atom.gen == s.atom.gen < |s'.gens| && |s'.gens[s.atom.gen]| == |s.gens[s.atom.gen]| > 0
    requires forall i :: 0 <= i < |s.pcs| && i != t ==>
               Spares(s.gens[s.atom.gen], s'.gens[s.atom.gen], s.atom, s'.atom, s.pcs[i])
    requires RoomyPc(s'.gens[s.atom.gen], s'.atom, s'.pcs[t])
    requires Fresh(s'.gens[s.atom.gen], s'.atom.waits)
    ensures Roomy(s')
  {
    hide RoomyPc, Spares, Fresh;
    forall i | 0 <= i < |s'.pcs|
      ensures RoomyPc(s'.gens[s.atom.gen], s'.atom, s'.pcs[i])
    {
      if i != t {
        Spared(s.gens[s.atom.gen], s'.gens[s.atom.gen], s.atom, s'.atom, s.pcs[i]);
      }
    }
  }

  /** A turn that changes no bucket of the current generation. */
  lemma {:induction false} SameCells(s: State, s': State, t: nat)
    requires Roomy(s) && FirstRound(s) && t < |s.pcs| && Moved(s, s', t)
    requires s'.atom.gen == s.atom.gen < |s'.gens| && s'.gens[s.atom.gen] == s.gens[s.atom.gen] != []
    requires s.atom.notifies <= s'.atom.notifies && s.atom.waits <= s'.atom.waits
    requires RoomyPc(s'.gens[s.atom.gen], s'.atom, s'.pcs[t])
    ensures Roomy(s')
  {
    RoomyFollows(s, s', t);
  }

  lemma {:induction false} NotifyRoomy(s: State, t: nat, c: Choice)
    requires Inv(s) && Roomy(s) && FirstRound(s) && t < |s.pcs|
    requires s.pcs[t].NotifyTry? || s.pcs[t].NotifyLoad? || s.pcs[t].NotifyWake?
    ensures FirstRound(Step(s, t, c)) ==> Roomy(Step(s, t, c))
  {
    hide Inv, Moved;
    Exist(s, t);
    ShapeOf(s);
    StepMoves(s, t, c);
    assert RoomyPc(s.gens[s.atom.gen], s.atom, s.pcs[t]);
    if s.pcs[t].NotifyLoad? && s.pcs[t].gen == s.atom.gen {
      NotifierFinds(s, t);
    }
    SameCells(s, Step(s, t, c), t);
  }

  lemma {:induction false} CasRoomy(s: State, t: nat, c: Choice)
    requires Inv(s) && Roomy(s) && FirstRound(s) && t < |s.pcs| && s.pcs[t].NotifyCas?
    ensures Roomy(Step(s, t, c))
  {
    hide Inv, Roomy, Moved;
    Exist(s, t);
    ShapeOf(s);
    StepMoves(s, t, c);
    RoomyAt(s, t);
    var s' := Step(s, t, c);
    if s.pcs[t].gen == s.atom.gen {
      var cells := s.gens[s.atom.gen];
      NotifierFinds(s, t);
      InRange(s.pcs[t].from, |cells|);
      RoomyFollows(s, s', t);
    } else {
      SameCells(s, s', t);
    }
  }

  lemma {:induction false} RoomyAt(s: State, t: nat)
    requires Inv(s) && Roomy(s) && FirstRound(s) && t < |s.pcs|
    ensures |s.gens[s.atom.gen]| > 0 && RoomyPc(s.gens[s.atom.gen], s.atom, s.pcs[t])
    ensures Fresh(s.gens[s.atom.gen], s.atom.waits)
  {
    hide Inv;
    Exist(s, t);
  }

  lemma {:induction false} EnterTryRoomy(s: State, t: nat, c: Choice)
    requires Inv(s) && Roomy(s) && FirstRound(s) && t < |s.pcs| && s.pcs[t].EnterTry?
    ensures FirstRound(Step(s, t, c)) ==> Roomy(Step(s, t, c))
  {
    hide Inv, Roomy, Moved;
    Exist(s, t);
    StepMoves(s, t, c);
    RoomyAt(s, t);
    var s' := Step(s, t, c);
    if FirstRound(s') {
      if s.atom.waits < |s.gens[s.atom.gen]| {
        InRange(s.atom.waits, |s.gens[s.atom.gen]|);
      }
      SameCells(s, s', t);
    }
  }

  lemma {:induction false} OwnTicket(s: State, t: nat)
    requires Inv(s) && FirstRound(s) && t < |s.pcs| && HasTicket(s.pcs[t]) && s.pcs[t].gen == s.atom.gen
    ensures s.pcs[t].ticket < s.atom.waits && s.pcs[t].ticket % |s.gens[s.atom.gen]| == s.pcs[t].ticket
    ensures forall i :: 0 <= i < |s.pcs| && i != t ==> !SameTicket(s.pcs[i], s.pcs[t])
  {
    hide Cells, Past, Locking, ClosedUpTo, Counted, Waiters, Sound;
    assert TicketOk(s.atom, s.pcs[t]);
    InRange(s.pcs[t].ticket, |s.gens[s.atom.gen]|);
    forall i | 0 <= i < |s.pcs| && i != t
      ensures !SameTicket(s.pcs[i], s.pcs[t])
    {
      if i < t {
        assert !SameTicket(s.pcs[i], s.pcs[t]);
      } else {
        assert !SameTicket(s.pcs[t], s.pcs[i]);
      }
    }
  }

  lemma {:induction false} EnterCasRoomy(s: State, t: nat, c: Choice)
    requires Inv(s) && Roomy(s) && FirstRound(s) && t < |s.pcs| && s.pcs[t].EnterCas?
    ensures Roomy(Step(s, t, c))
  {
    hide Inv, Roomy, Moved;
    Exist(s, t);
    StepMoves(s, t, c);
    RoomyAt(s, t);
    var s' := Step(s, t, c);
    if s.pcs[t].gen == s.atom.gen {
      OwnTicket(s, t);
      RoomyFollows(s, s', t);
    } else {
      SameCells(s, s', t);
    }
  }

  lemma {:induction false} PollRoomy(s: State, t: nat, c: Choice)
    requires Inv(s) && Roomy(s) && FirstRound(s) && t < |s.pcs|
    requires s.pcs[t].EnterCheck? || s.pcs[t].Parked? || s.pcs[t].PollLoad? || s.pcs[t].PollCas?
    ensures Roomy(Step(s, t, c))
  {
    hide Inv, Roomy, Moved;
    Exist(s, t);
    StepMoves(s, t, c);
    RoomyAt(s, t);
    WaitAt(s, t);
    var s' := Step(s, t, c);
    if s.pcs[t].gen == s.atom.gen {
      OwnTicket(s, t);
      NobodySweeps(s, s.pcs[t].ticket);
      RoomyFollows(s, s', t);
    } else {
      SameCells(s, s', t);
    }
  }

  lemma {:induction false} CloseRoomy(s: State, t: nat, c: Choice)
    requires Inv(s) && Roomy(s) && FirstRound(s) && t < |s.pcs|
    requires s.pcs[t].ExpandLock? || s.pcs[t].Sweep? || s.pcs[t].SweepWake? || s.pcs[t].Publish? || s.pcs[t].Idle?
    ensures Roomy(Step(s, t, c))
  {
    hide Inv, Roomy, Moved;
    Exist(s, t);
    LockAt(s, t);
    StepMoves(s, t, c);
    RoomyAt(s, t);
    SameCells(s, Step(s, t, c), t);
  }

  /** A new generation is in its first round, and nobody is at it. */
  lemma {:induction false} NewRoomy(s: State, t: nat, c: Choice)
    requires Inv(s) && t < |s.pcs| && s.pcs[t].Sweep? && Step(s, t, c).pcs[t].Publish?
    ensures Roomy(Step(s, t, c))
  {
    hide Inv;
    Exist(s, t);
    StepMoves(s, t, c);
    var s' := Step(s, t, c);
    forall i | 0 <= i < |s'.pcs|
      ensures RoomyPc(s'.gens[s'.atom.gen], s'.atom, s'.pcs[i])
    {
      Exist(s, i);
    }
  }

  /** A generation that has handed out more tickets than it has buckets has for good. */
  lemma {:induction false} RoundEnds(s: State, t: nat, c: Choice)
    requires Inv(s) && t < |s.pcs| && !FirstRound(s)
    ensures FirstRound(Step(s, t, c)) ==> s.pcs[t].Sweep? && Step(s, t, c).pcs[t].Publish?
  {
    hide Inv, Step;
    Exist(s, t);
    ShapeOf(s);
    StepMoves(s, t, c);
    if s.pcs[t].NotifyTry? {
      NotifyEntry(s, t, c);
    } else if s.pcs[t].Sweep? {
      SweepEntry(s, t, c);
    } else {
      OtherEntry(s, t, c);
    }
  }

  lemma {:induction false} StepRoomy(s: State, t: nat, c: Choice)
    requires Inv(s) && Roomy(s) && t < |s.pcs|
    ensures Roomy(Step(s, t, c))
  {
    hide Inv, Step, RoomyPc, Fresh;
    Exist(s, t);
    StepMoves(s, t, c);
    var pc := s.pcs[t];
    if pc.Sweep? && Step(s, t, c).pcs[t].Publish? {
      NewRoomy(s, t, c);
    } else if !FirstRound(s) {
      RoundEnds(s, t, c);
    } else if pc.NotifyTry? || pc.NotifyLoad? || pc.NotifyWake? {
      NotifyRoomy(s, t, c);
    } else if pc.NotifyCas? {
      CasRoomy(s, t, c);
    } else if pc.EnterTry? {
      EnterTryRoomy(s, t, c);
    } else if pc.EnterCas? {
      EnterCasRoomy(s, t, c);
    } else if HasTicket(pc) {
      PollRoomy(s, t, c);
    } else {
      CloseRoomy(s, t, c);
    }
  }

  lemma {:induction false} StartsRoomy(cap: nat, tasks: nat)
    ensures Roomy(Init(cap, tasks))
  {
  }

  lemma {:induction false} RunRoomy(cap: nat, tasks: nat, schedule: seq<(nat, Choice)>)
    requires cap > 0
    ensures Roomy(Run(Init(cap, tasks), schedule))
    decreases |schedule|
  {
    hide Step, Inv, Roomy;
    if schedule == [] {
      StartsRoomy(cap, tasks);
    } else {
      var last := |schedule| - 1;
      RunRoomy(cap, tasks, schedule[..last]);
      RunKeeps(cap, tasks, schedule[..last]);
      var p := Run(Init(cap, tasks), schedule[..last]);
      var (t, c) := schedule[last];
      if t < |p.pcs| {
        StepRoomy(p, t, c);
      }
    }
  }

  /** Over every run: as long as a generation has handed out no more tickets than it has
    buckets, nobody closes it or is about to, and all its buckets are open. */
  lemma {:induction false} NoNeedlessClosing(cap: nat, tasks: nat, schedule: seq<(nat, Choice)>, i: nat, r: nat)
    requires cap > 0 && FirstRound(Run(Init(cap, tasks), schedule))
    requires var s := Run(Init(cap, tasks), schedule); i < |s.pcs| && r < |s.gens[s.atom.gen]|
    ensures var s := Run(Init(cap, tasks), schedule);
            !Closes(s.pcs[i], s.atom.gen) && !s.gens[s.atom.gen][r].bucket.Tombstone?
  {
    hide Run, Init, Inv, Roomy;
    RunKeeps(cap, tasks, schedule);
    RunRoomy(cap, tasks, schedule);
    RoomyAt(Run(Init(cap, tasks), schedule), i);
    NobodySweeps(Run(Init(cap, tasks), schedule), r);
  }
}
