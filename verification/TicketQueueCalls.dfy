/** What a caller of the ticketed wait queue gets: notify notifies as many tickets as it was
  asked to, a generation is closed for want of room only and followed by one of twice the
  capacity, and an attempt that nobody disturbs is answered.
 */
module TicketQueueCalls {
  import opened Options
  import opened Places
  import opened TicketQueue
  import opened TicketQueueProof

  // ----- what a step does to other tasks -----

  /** Generations are added, and none changes its capacity. */
  ghost predicate Grown(a: seq<Generation>, b: seq<Generation>)
  {
    |a| <= |b| && forall g :: 0 <= g < |a| ==> |b[g]| == |a[g]|
  }

  lemma {:induction false} GrownOrder()
    ensures forall a: seq<Generation> :: Grown(a, a)
    ensures forall a: seq<Generation>, b: seq<Generation>, c: seq<Generation> {:trigger Grown(a, b), Grown(b, c)} ::
              Grown(a, b) && Grown(b, c) ==> Grown(a, c)
  {
  }

  lemma {:induction false} SameLength(a: seq<Generation>, b: seq<Generation>, gen: nat)
    requires Grown(a, b) && gen < |a|
    ensures gen < |b| && |b[gen]| == |a[gen]|
  {
  }

  predicate Moved(s: State, s': State, u: nat)
    requires u < |s.pcs|
  {
    |s'.pcs| == |s.pcs| && s'.pcs == s.pcs[u := s'.pcs[u]]
  }

  /** A step moves nobody but its own task. */
  lemma {:induction false} StepMoves(s: State, u: nat, c: Choice)
    requires u < |s.pcs|
    ensures Moved(s, Step(s, u, c), u) && Grown(s.gens, Step(s, u, c).gens)
  {
    hide Step;
    match s.pcs[u]
    case NotifyTry(_, _) | NotifyLoad(_, _, _) | NotifyCas(_, _, _, _) | NotifyWake(_, _, _, _) => NotifyMoves(s, u, c);
    case ExpandLock(_, _, _) | Sweep(_, _, _, _) | SweepWake(_, _, _, _, _) | Publish(_) => ExpandMoves(s, u, c);
    case _ => WaitMoves(s, u, c);
  }

  lemma {:induction false} NotifyMoves(s: State, u: nat, c: Choice)
    requires u < |s.pcs|
    requires s.pcs[u].NotifyTry? || s.pcs[u].NotifyLoad? || s.pcs[u].NotifyCas? || s.pcs[u].NotifyWake?
    ensures Moved(s, Step(s, u, c), u) && Grown(s.gens, Step(s, u, c).gens)
  {
  }

  lemma {:induction false} ExpandMoves(s: State, u: nat, c: Choice)
    requires u < |s.pcs|
    requires s.pcs[u].ExpandLock? || s.pcs[u].Sweep? || s.pcs[u].SweepWake? || s.pcs[u].Publish?
    ensures Moved(s, Step(s, u, c), u) && Grown(s.gens, Step(s, u, c).gens)
  {
    if s.pcs[u].Sweep? && s.pcs[u].gen < |s.gens| && s.pcs[u].next < |s.gens[s.pcs[u].gen]| {
      InRange(s.pcs[u].next, |s.gens[s.pcs[u].gen]|);
    }
  }

  lemma {:induction false} WaitMoves(s: State, u: nat, c: Choice)
    requires u < |s.pcs|
    requires var pc := s.pcs[u];
             || pc.Idle? || pc.EnterTry? || pc.EnterCas? || pc.EnterCheck? || pc.Parked? || pc.PollLoad? || pc.PollCas?
             || pc.Crashed?
    ensures Moved(s, Step(s, u, c), u) && Grown(s.gens, Step(s, u, c).gens)
  {
  }

  // ----- the operations a task asks for -----

  /** Between operations a task is idle, or parked until it is polled again. */
  predicate BetweenCalls(pc: Pc)
  {
    pc.Idle? || pc.Parked?
  }

  /** What the task asked for on its turns at rest, in order. */
  function Calls(cap: nat, tasks: nat, schedule: seq<(nat, Choice)>, t: nat): seq<Op>
    decreases |schedule|
  {
    if schedule == [] then []
    else
      var last := |schedule| - 1;
      var s := Run(Init(cap, tasks), schedule[..last]);
      Calls(cap, tasks, schedule[..last], t)
      + if schedule[last].0 == t && t < |s.pcs| && BetweenCalls(s.pcs[t]) then [schedule[last].1.op] else []
  }

  lemma {:induction false} CallsOne(cap: nat, tasks: nat, schedule: seq<(nat, Choice)>, u: nat, c: Choice, t: nat)
    ensures var s := Run(Init(cap, tasks), schedule);
            Calls(cap, tasks, schedule + [(u, c)], t)
            == Calls(cap, tasks, schedule, t) + if u == t && t < |s.pcs| && BetweenCalls(s.pcs[t]) then [c.op] else []
  {
    hide Run, Init, BetweenCalls;
    assert (schedule + [(u, c)])[..|schedule|] == schedule;
  }

  lemma {:induction false} CallsGrow(cap: nat, tasks: nat, schedule: seq<(nat, Choice)>, more: seq<(nat, Choice)>,
        t: nat)
    ensures Calls(cap, tasks, schedule, t) <= Calls(cap, tasks, schedule + more, t)
    decreases |more|
  {
    hide Run, Init, BetweenCalls;
    if more == [] {
      assert schedule + more == schedule;
    } else {
      var last := |more| - 1;
      CallsGrow(cap, tasks, schedule, more[..last], t);
      assert schedule + more == schedule + more[..last] + [more[last]];
      CallsOne(cap, tasks, schedule + more[..last], more[last].0, more[last].1, t);
    }
  }

  lemma {:induction false} RunOne(cap: nat, tasks: nat, schedule: seq<(nat, Choice)>, t: nat, c: Choice)
    ensures var p := Run(Init(cap, tasks), schedule);
            Run(Init(cap, tasks), schedule + [(t, c)]) == if t < |p.pcs| then Step(p, t, c) else p
  {
    hide Step;
    assert (schedule + [(t, c)])[..|schedule|] == schedule;
  }

  /** The last thing the task asked for is what it is at: a notifier is to notify as many
    tickets as it was asked to, or one if the condition of a wait has failed. */
  predicate Recalls(calls: seq<Op>, pc: Pc)
  {
    match pc
    case NotifyTry(add, _) =>
      calls != [] && (calls[|calls| - 1] == StartNotify(add) || (calls[|calls| - 1].StartWait? && add == 1))
    case EnterTry(_) | EnterCas(_, _, _, _) | EnterCheck(_, _, _) =>
      calls != [] && calls[|calls| - 1].StartWait?
    case _ => true
  }

  lemma {:induction false} RecallsOwn(s: State, t: nat, c: Choice, calls: seq<Op>)
    requires t < |s.pcs| && t < |Step(s, t, c).pcs| && Recalls(calls, s.pcs[t])
    ensures Recalls(if BetweenCalls(s.pcs[t]) then calls + [c.op] else calls, Step(s, t, c).pcs[t])
  {
  }

  lemma {:induction false} NotifyAsks(cap: nat, tasks: nat, schedule: seq<(nat, Choice)>, t: nat)
    requires t < |Run(Init(cap, tasks), schedule).pcs|
    ensures Recalls(Calls(cap, tasks, schedule, t), Run(Init(cap, tasks), schedule).pcs[t])
    decreases |schedule|
  {
    hide Step, Recalls, BetweenCalls;
    if schedule == [] {
      NobodyAsks(cap, tasks);
    } else {
      var last := |schedule| - 1;
      var p := Run(Init(cap, tasks), schedule[..last]);
      var (u, c) := schedule[last];
      if u < |p.pcs| {
        StepMoves(p, u, c);
        NotifyAsks(cap, tasks, schedule[..last], t);
        if u == t {
          RecallsOwn(p, t, c, Calls(cap, tasks, schedule[..last], t));
        }
      } else {
        NotifyAsks(cap, tasks, schedule[..last], t);
      }
      NoChange(Calls(cap, tasks, schedule[..last], t));
    }
  }

  lemma {:induction false} NoChange(calls: seq<Op>)
    ensures calls + [] == calls
  {
  }

  lemma {:induction false} NobodyAsks(cap: nat, tasks: nat)
    ensures forall i :: 0 <= i < tasks ==> Recalls([], Init(cap, tasks).pcs[i])
  {
  }

  // ----- the ledger of a generation -----

  /** The task takes the next ticket. */
  predicate Takes(s: State, s': State, t: nat)
    requires t < |s.pcs| && t < |s'.pcs|
  {
    && s.pcs[t].EnterTry? && s'.atom == s.atom.(waits := s.atom.waits + 1)
    && s'.pcs[t].EnterCas? && s'.pcs[t].gen == s.atom.gen && s'.pcs[t].ticket == s.atom.waits
  }

  /** The task notifies the next k tickets, or all that were taken, and goes on to serve
    just these. */
  predicate Notifies(s: State, s': State, t: nat, k: nat)
    requires t < |s.pcs| && t < |s'.pcs|
  {
    && s.pcs[t].NotifyTry? && s.atom.notifies <= s.atom.waits
    && var n := s.atom.notifies + Min(k, s.atom.waits - s.atom.notifies);
       s'.atom == s.atom.(notifies := n) && s'.pcs[t] == NextTicket(s.atom.gen, s.atom.notifies, n)
  }

  /** The task opens a generation of twice the capacity after closing the last one. */
  predicate Renews(s: State, s': State, t: nat)
    requires t < |s.pcs| && t < |s'.pcs|
  {
    && s.pcs[t].Sweep? && s'.pcs[t].Publish?
    && s'.atom == Atom(s.atom.gen + 1, 0, 0) && |s'.gens| == s.atom.gen + 2
    && Closed(s'.gens[s.atom.gen]) && |s'.gens[s.atom.gen + 1]| == 2 * |s'.gens[s.atom.gen]|
  }

  lemma {:induction false} NotifyEntry(s: State, t: nat, c: Choice)
    requires Inv(s) && t < |s.pcs| && s.pcs[t].NotifyTry?
    ensures var s' := Step(s, t, c);
            && t < |s'.pcs|
            && ((s'.atom == s.atom && s'.gens == s.gens && s'.pcs[t] == NotifyTry(s.pcs[t].add, s.atom))
                || Notifies(s, s', t, s.pcs[t].add))
  {
    hide Cells, Past, Locking, ClosedUpTo, Counted, Tickets, Waiters, Sound;
  }

  lemma {:induction false} SweepEntry(s: State, t: nat, c: Choice)
    requires Inv(s) && t < |s.pcs| && s.pcs[t].Sweep?
    ensures var s' := Step(s, t, c);
            t < |s'.pcs| && (Renews(s, s', t) || (s'.atom == s.atom && !s'.pcs[t].Publish? && |s'.gens| == |s.gens|))
  {
    hide Inv, Closed;
    Exist(s, t);
    LockAt(s, t);
    SweepCloses(s, t);
  }

  lemma {:induction false} SweepCloses(s: State, t: nat)
    requires Inv(s) && t < |s.pcs| && s.pcs[t].Sweep?
    ensures |s.gens| == s.atom.gen + 1
    ensures s.pcs[t].next >= |s.gens[s.atom.gen]| ==> Closed(s.gens[s.atom.gen])
  {
    hide Cells, Past, Counted, Tickets, Waiters, Sound;
    LockAt(s, t);
  }

  lemma {:induction false} OtherEntry(s: State, t: nat, c: Choice)
    requires t < |s.pcs| && !s.pcs[t].NotifyTry? && !s.pcs[t].Sweep?
    ensures var s' := Step(s, t, c);
            t < |s'.pcs| && |s'.gens| == |s.gens| && (s'.atom == s.atom || Takes(s, s', t))
  {
  }

  /** On every turn of every run the tickets of the current generation are accounted for:
    one more is taken, the smaller of the number the caller asked for and of the tickets
    taken and not notified yet is notified, or the generation is closed for good and a new
    one begins. */
  lemma {:induction false} Ledger(cap: nat, tasks: nat, schedule: seq<(nat, Choice)>, t: nat, c: Choice)
    requires cap > 0 && t < |Run(Init(cap, tasks), schedule).pcs|
    ensures var s := Run(Init(cap, tasks), schedule);
            var s' := Step(s, t, c);
            var calls := Calls(cap, tasks, schedule, t);
            && t < |s'.pcs|
            && (s'.atom == s.atom || Takes(s, s', t) || Renews(s, s', t)
                || (calls != []
                    && Notifies(s, s', t, if calls[|calls| - 1].StartNotify? then calls[|calls| - 1].add else 1)))
  {
    hide Run, Init, Inv, Step, Calls, Takes, Notifies, Renews;
    RunKeeps(cap, tasks, schedule);
    var s := Run(Init(cap, tasks), schedule);
    NotifyAsks(cap, tasks, schedule, t);
    if s.pcs[t].NotifyTry? {
      NotifyEntry(s, t, c);
    } else if s.pcs[t].Sweep? {
      SweepEntry(s, t, c);
    } else {
      OtherEntry(s, t, c);
    }
  }

  function PowerOfTwo(n: nat): nat
  {
    if n == 0 then 1 else 2 * PowerOfTwo(n - 1)
  }

  /** Every generation has twice the capacity of the one before. */
  lemma {:induction false} CapacityDoubles(cap: nat, tasks: nat, schedule: seq<(nat, Choice)>, g: nat)
    requires cap > 0 && g < |Run(Init(cap, tasks), schedule).gens|
    ensures |Run(Init(cap, tasks), schedule).gens[g]| == cap * PowerOfTwo(g)
    decreases |schedule|, g
  {
    hide Step, Inv, Renews;
    if schedule == [] {
    } else {
      var last := |schedule| - 1;
      var p := Run(Init(cap, tasks), schedule[..last]);
      var (t, c) := schedule[last];
      RunKeeps(cap, tasks, schedule[..last]);
      if t < |p.pcs| {
        StepMoves(p, t, c);
        if g < |p.gens| {
          CapacityDoubles(cap, tasks, schedule[..last], g);
        } else {
          NewCapacity(p, t, c, g);
          CapacityDoubles(cap, tasks, schedule, g - 1);
        }
      } else {
        CapacityDoubles(cap, tasks, schedule[..last], g);
      }
    }
  }

  lemma {:induction false} NewCapacity(s: State, t: nat, c: Choice, g: nat)
    requires Inv(s) && t < |s.pcs| && |s.gens| <= g < |Step(s, t, c).gens|
    ensures g > 0 && |Step(s, t, c).gens[g]| == 2 * |Step(s, t, c).gens[g - 1]|
  {
    hide Inv, Step;
    if s.pcs[t].NotifyTry? {
      NotifyEntry(s, t, c);
      NotifyAdds(s, t, c);
    } else if s.pcs[t].Sweep? {
      SweepEntry(s, t, c);
      SweepCloses(s, t);
    } else {
      OtherEntry(s, t, c);
    }
  }

  lemma {:induction false} NotifyAdds(s: State, t: nat, c: Choice)
    requires t < |s.pcs| && s.pcs[t].NotifyTry?
    ensures Step(s, t, c).gens == s.gens
  {
  }

  // ----- notify notifies what it was asked to -----

  /** On the i-th turn the task notifies the next k tickets, or all that were taken. */
  predicate NotifiesAt(cap: nat, tasks: nat, schedule: seq<(nat, Choice)>, i: nat, t: nat, k: nat)
    requires i < |schedule|
  {
    var s := Run(Init(cap, tasks), schedule[..i]);
    var s' := Run(Init(cap, tasks), schedule[..i + 1]);
    schedule[i].0 == t && t < |s.pcs| && t < |s'.pcs| && Notifies(s, s', t, k)
  }

  predicate HasNotified(cap: nat, tasks: nat, schedule: seq<(nat, Choice)>, from: nat, t: nat, k: nat)
  {
    exists i :: from <= i < |schedule| && NotifiesAt(cap, tasks, schedule, i, t, k)
  }

  lemma {:induction false} HasNotifiedStays(cap: nat, tasks: nat, schedule: seq<(nat, Choice)>, from: nat, t: nat,
        k: nat, turn: (nat, Choice))
    requires HasNotified(cap, tasks, schedule, from, t, k)
    ensures HasNotified(cap, tasks, schedule + [turn], from, t, k)
  {
    hide Run, Init, Notifies;
    var i :| from <= i < |schedule| && NotifiesAt(cap, tasks, schedule, i, t, k);
    var all := schedule + [turn];
    assert all[..i] == schedule[..i] && all[..i + 1] == schedule[..i + 1];
    assert NotifiesAt(cap, tasks, all, i, t, k);
  }

  /** The task serves the tickets it has notified, or closes the generation. */
  predicate Serves(pc: Pc)
  {
    || pc.NotifyLoad? || pc.NotifyCas? || pc.NotifyWake?
    || pc.ExpandLock? || pc.Sweep? || pc.SweepWake? || pc.Publish?
  }

  /** How far a notifier has come that began after the first turns of the run. */
  predicate Progress(cap: nat, tasks: nat, schedule: seq<(nat, Choice)>, from: nat, t: nat, k: nat)
  {
    var s := Run(Init(cap, tasks), schedule);
    && t < |s.pcs|
    && if s.pcs[t].NotifyTry? then s.pcs[t].add == k
       else (Serves(s.pcs[t]) || s.pcs[t].Idle?) && HasNotified(cap, tasks, schedule, from, t, k)
  }

  lemma {:induction false} ServesOn(s: State, t: nat, c: Choice)
    requires Inv(s) && t < |s.pcs| && Serves(s.pcs[t])
    ensures t < |Step(s, t, c).pcs|
    ensures var pc := Step(s, t, c).pcs[t]; Serves(pc) || pc.Idle?
  {
    hide Inv;
    Exist(s, t);
    ExistServed(s, t);
  }

  lemma {:induction false} ExistServed(s: State, t: nat)
    requires Inv(s) && t < |s.pcs| && Serves(s.pcs[t])
    ensures GenOf(s.pcs[t]).Some? && Exists(s, GenOf(s.pcs[t]).value)
  {
    hide Inv;
    Exist(s, t);
  }

  lemma {:induction false} ProgressTurn(cap: nat, tasks: nat, schedule: seq<(nat, Choice)>, from: nat, t: nat, k: nat,
        c: Choice)
    requires cap > 0 && from <= |schedule| && Progress(cap, tasks, schedule, from, t, k)
    requires !Run(Init(cap, tasks), schedule).pcs[t].Idle?
    ensures Progress(cap, tasks, schedule + [(t, c)], from, t, k)
  {
    hide Run, Init, Inv, Step, Serves, HasNotified;
    RunKeeps(cap, tasks, schedule);
    var s := Run(Init(cap, tasks), schedule);
    RunOne(cap, tasks, schedule, t, c);
    if s.pcs[t].NotifyTry? {
      NotifyEntry(s, t, c);
      if Notifies(s, Step(s, t, c), t, k) {
        HasNotifiedNow(cap, tasks, schedule, from, t, k, c);
        ServesNext(s.atom.gen, s.atom.notifies, Step(s, t, c).atom.notifies);
      }
    } else {
      ServesOn(s, t, c);
      ServesNoTry(Step(s, t, c).pcs[t]);
      HasNotifiedStays(cap, tasks, schedule, from, t, k, (t, c));
    }
  }

  lemma {:induction false} ServesNoTry(pc: Pc)
    ensures Serves(pc) ==> !pc.NotifyTry?
  {
  }

  lemma {:induction false} ServesNext(gen: nat, from: nat, to: nat)
    ensures Serves(NextTicket(gen, from, to)) || NextTicket(gen, from, to).Idle?
    ensures !NextTicket(gen, from, to).NotifyTry?
  {
  }

  lemma {:induction false} HasNotifiedNow(cap: nat, tasks: nat, schedule: seq<(nat, Choice)>, from: nat, t: nat, k: nat,
        c: Choice)
    requires from <= |schedule|
    requires var s := Run(Init(cap, tasks), schedule);
             t < |s.pcs| && t < |Step(s, t, c).pcs| && Notifies(s, Step(s, t, c), t, k)
    ensures HasNotified(cap, tasks, schedule + [(t, c)], from, t, k)
  {
    hide Run, Init, Step, Notifies;
    RunOne(cap, tasks, schedule, t, c);
    var all := schedule + [(t, c)];
    assert all[..|schedule|] == schedule && all[..|schedule| + 1] == all;
    assert NotifiesAt(cap, tasks, all, |schedule|, t, k);
  }

  lemma {:induction false} NotifyBegins(cap: nat, tasks: nat, schedule: seq<(nat, Choice)>, from: nat, t: nat,
        c: Choice)
    requires c.op.StartNotify?
    requires var s := Run(Init(cap, tasks), schedule); t < |s.pcs| && s.pcs[t].Idle?
    ensures Progress(cap, tasks, schedule + [(t, c)], from, t, c.op.add)
  {
    hide Run, Init, HasNotified;
    RunOne(cap, tasks, schedule, t, c);
  }

  /** Over whole runs: an idle task that asks for nothing but to notify k tickets, and is
    idle again at the end, has on one of its turns notified the smaller of k and of the
    tickets that were taken and not notified. */
  lemma {:induction false} NotifyTakesEffect(cap: nat, tasks: nat, schedule: seq<(nat, Choice)>,
        more: seq<(nat, Choice)>, t: nat, k: nat)
    requires cap > 0
    requires var s := Run(Init(cap, tasks), schedule); t < |s.pcs| && s.pcs[t].Idle?
    requires Calls(cap, tasks, schedule + more, t) == Calls(cap, tasks, schedule, t) + [StartNotify(k)]
    requires var s' := Run(Init(cap, tasks), schedule + more); t < |s'.pcs| && s'.pcs[t].Idle?
    ensures HasNotified(cap, tasks, schedule + more, |schedule|, t, k)
  {
    hide Run, Init, HasNotified;
    NotifyProgress(cap, tasks, schedule, more, t, k);
  }

  lemma {:induction false} NotifyProgress(cap: nat, tasks: nat, schedule: seq<(nat, Choice)>, more: seq<(nat, Choice)>,
        t: nat, k: nat)
    requires cap > 0
    requires var s := Run(Init(cap, tasks), schedule); t < |s.pcs| && s.pcs[t].Idle?
    requires Calls(cap, tasks, schedule + more, t) <= Calls(cap, tasks, schedule, t) + [StartNotify(k)]
    ensures var s' := Run(Init(cap, tasks), schedule + more);
            if Calls(cap, tasks, schedule + more, t) == Calls(cap, tasks, schedule, t) then
              t < |s'.pcs| && s'.pcs[t].Idle?
            else
              && Calls(cap, tasks, schedule + more, t) == Calls(cap, tasks, schedule, t) + [StartNotify(k)]
              && Progress(cap, tasks, schedule + more, |schedule|, t, k)
    decreases |more|
  {
    hide Run, Init, Step, Calls, Progress;
    CallsGrow(cap, tasks, schedule, more, t);
    if more == [] {
      assert schedule + more == schedule;
    } else {
      var last := |more| - 1;
      var before := schedule + more[..last];
      assert schedule + more == before + [more[last]];
      CallsGrow(cap, tasks, before, [more[last]], t);
      CallsGrow(cap, tasks, schedule, more[..last], t);
      NotifyProgress(cap, tasks, schedule, more[..last], t, k);
      NotifyTurn(cap, tasks, schedule, before, more[last].0, more[last].1, t, k);
    }
  }

  lemma {:induction false} NotifyTurn(cap: nat, tasks: nat, schedule: seq<(nat, Choice)>, before: seq<(nat, Choice)>,
        u: nat, c: Choice, t: nat, k: nat)
    requires cap > 0 && |schedule| <= |before|
    requires Calls(cap, tasks, schedule, t) <= Calls(cap, tasks, before + [(u, c)], t)
          <= Calls(cap, tasks, schedule, t) + [StartNotify(k)]
    requires var s := Run(Init(cap, tasks), before);
             if Calls(cap, tasks, before, t) == Calls(cap, tasks, schedule, t) then t < |s.pcs| && s.pcs[t].Idle?
             else && Calls(cap, tasks, before, t) == Calls(cap, tasks, schedule, t) + [StartNotify(k)]
                  && Progress(cap, tasks, before, |schedule|, t, k)
    ensures var s' := Run(Init(cap, tasks), before + [(u, c)]);
            if Calls(cap, tasks, before + [(u, c)], t) == Calls(cap, tasks, schedule, t) then
              t < |s'.pcs| && s'.pcs[t].Idle?
            else
              && Calls(cap, tasks, before + [(u, c)], t) == Calls(cap, tasks, schedule, t) + [StartNotify(k)]
              && Progress(cap, tasks, before + [(u, c)], |schedule|, t, k)
  {
    hide Run, Init, Step, Calls, HasNotified;
    var s := Run(Init(cap, tasks), before);
    RunOne(cap, tasks, before, u, c);
    CallsOne(cap, tasks, before, u, c, t);
    if u == t {
      if Calls(cap, tasks, before, t) == Calls(cap, tasks, schedule, t) {
        LastCall(Calls(cap, tasks, schedule, t), c.op, StartNotify(k));
        NotifyBegins(cap, tasks, before, |schedule|, t, c);
      } else {
        ProgressTurn(cap, tasks, before, |schedule|, t, k, c);
      }
    } else {
      if u < |s.pcs| {
        StepMoves(s, u, c);
      }
      if HasNotified(cap, tasks, before, |schedule|, t, k) {
        HasNotifiedStays(cap, tasks, before, |schedule|, t, k, (u, c));
      }
    }
  }

  lemma {:induction false} LastCall(calls: seq<Op>, a: Op, b: Op)
    requires calls + [a] <= calls + [b]
    ensures a == b
  {
    assert (calls + [a])[|calls|] == (calls + [b])[|calls|];
  }

  // ----- a wait parks exactly if its condition holds -----

  /** On the i-th turn the condition of the task's wait was evaluated, and it held. */
  predicate HeldAt(cap: nat, tasks: nat, schedule: seq<(nat, Choice)>, i: nat, t: nat, gen: nat, ticket: nat)
    requires i < |schedule|
  {
    var s := Run(Init(cap, tasks), schedule[..i]);
    && schedule[i].0 == t && schedule[i].1.holds
    && t < |s.pcs| && s.pcs[t].EnterCheck? && s.pcs[t].gen == gen && s.pcs[t].ticket == ticket
  }

  predicate Held(cap: nat, tasks: nat, schedule: seq<(nat, Choice)>, t: nat, gen: nat, ticket: nat)
  {
    exists i :: 0 <= i < |schedule| && HeldAt(cap, tasks, schedule, i, t, gen, ticket)
  }

  predicate IsParked(pc: Pc)
  {
    pc.Parked? || pc.PollLoad? || pc.PollCas?
  }

  lemma {:induction false} WaitParks(s: State, t: nat, c: Choice)
    requires t < |s.pcs| && t < |Step(s, t, c).pcs| && IsParked(Step(s, t, c).pcs[t])
    requires s.pcs[t].EnterTry? || HasTicket(s.pcs[t])
    ensures var pc, next := s.pcs[t], Step(s, t, c).pcs[t];
            && ((pc.EnterCheck? && c.holds && next.Parked?) || IsParked(pc))
            && next.gen == pc.gen && next.ticket == pc.ticket
  {
    hide StepNotifyTry, StepNotifyCas, StepExpandLock, StepSweep, NextTicket;
  }

  lemma {:induction false} NotifyNeverParks(s: State, t: nat, c: Choice)
    requires t < |s.pcs| && t < |Step(s, t, c).pcs| && !s.pcs[t].EnterTry? && !HasTicket(s.pcs[t])
    ensures !IsParked(Step(s, t, c).pcs[t])
  {
    hide StepEnterTry, StepEnterCas, StepPollCas;
  }

  lemma {:induction false} ParkedFollows(s: State, t: nat, c: Choice)
    requires t < |s.pcs| && t < |Step(s, t, c).pcs| && IsParked(Step(s, t, c).pcs[t])
    ensures var pc, next := s.pcs[t], Step(s, t, c).pcs[t];
            && ((pc.EnterCheck? && c.holds && next.Parked?) || IsParked(pc))
            && next.gen == pc.gen && next.ticket == pc.ticket
  {
    hide Step;
    if s.pcs[t].EnterTry? || HasTicket(s.pcs[t]) {
      WaitParks(s, t, c);
    } else {
      NotifyNeverParks(s, t, c);
    }
  }

  /** A wait is parked only if its condition held, after its ticket was taken. */
  lemma {:induction false} ParkedHeld(cap: nat, tasks: nat, schedule: seq<(nat, Choice)>, t: nat)
    requires var s := Run(Init(cap, tasks), schedule); t < |s.pcs| && IsParked(s.pcs[t])
    ensures var pc := Run(Init(cap, tasks), schedule).pcs[t]; Held(cap, tasks, schedule, t, pc.gen, pc.ticket)
    decreases |schedule|
  {
    hide Step, HeldAt;
    if schedule == [] {
      NobodyParked(cap, tasks);
    } else {
      var last := |schedule| - 1;
      var p := Run(Init(cap, tasks), schedule[..last]);
      var (u, c) := schedule[last];
      if u < |p.pcs| {
        StepMoves(p, u, c);
        if u == t {
          ParkedFollows(p, t, c);
        }
      }
      if IsParked(p.pcs[t]) {
        ParkedHeld(cap, tasks, schedule[..last], t);
        HeldStays(cap, tasks, schedule, t, p.pcs[t].gen, p.pcs[t].ticket);
      } else {
        HeldNow(cap, tasks, schedule, t);
      }
      hide Run;
    }
  }

  lemma {:induction false} NobodyParked(cap: nat, tasks: nat)
    ensures forall i :: 0 <= i < tasks ==> !IsParked(Init(cap, tasks).pcs[i])
  {
  }

  lemma {:induction false} HeldStays(cap: nat, tasks: nat, schedule: seq<(nat, Choice)>, t: nat, gen: nat, ticket: nat)
    requires schedule != [] && Held(cap, tasks, schedule[..|schedule| - 1], t, gen, ticket)
    ensures Held(cap, tasks, schedule, t, gen, ticket)
  {
    hide Run, Init;
    var before := schedule[..|schedule| - 1];
    var i :| 0 <= i < |before| && HeldAt(cap, tasks, before, i, t, gen, ticket);
    assert before[..i] == schedule[..i];
    assert HeldAt(cap, tasks, schedule, i, t, gen, ticket);
  }

  lemma {:induction false} HeldNow(cap: nat, tasks: nat, schedule: seq<(nat, Choice)>, t: nat)
    requires schedule != [] && schedule[|schedule| - 1].0 == t && schedule[|schedule| - 1].1.holds
    requires var p := Run(Init(cap, tasks), schedule[..|schedule| - 1]); t < |p.pcs| && p.pcs[t].EnterCheck?
    ensures var pc := Run(Init(cap, tasks), schedule[..|schedule| - 1]).pcs[t];
            Held(cap, tasks, schedule, t, pc.gen, pc.ticket)
  {
    hide Run, Init;
    var pc := Run(Init(cap, tasks), schedule[..|schedule| - 1]).pcs[t];
    assert HeldAt(cap, tasks, schedule, |schedule| - 1, t, pc.gen, pc.ticket);
  }

  // ----- attempts that nobody disturbs are answered -----

  const GO := Choice(StartWait, true, false)

  /** Two turns of a task with nobody else in between, the second only if it still loops. */
  function Undisturbed(s: State, t: nat, loops: Pc -> bool): State
    requires t < |s.pcs|
  {
    var s' := Step(s, t, GO);
    if t < |s'.pcs| && loops(s'.pcs[t]) then Step(s', t, GO) else s'
  }

  /** A task that comes to wait takes the next ticket. */
  lemma {:induction false} EnterIsAnswered(cap: nat, tasks: nat, schedule: seq<(nat, Choice)>, t: nat)
    requires var s := Run(Init(cap, tasks), schedule); t < |s.pcs| && s.pcs[t].EnterTry?
    ensures var s := Run(Init(cap, tasks), schedule);
            var s' := Undisturbed(s, t, (pc: Pc) => pc.EnterTry?);
            && t < |s'.pcs| && s'.pcs[t].EnterCas? && s'.pcs[t].gen == s.atom.gen && s'.pcs[t].ticket == s.atom.waits
            && s'.atom == s.atom.(waits := s.atom.waits + 1)
  {
    hide Run, Init;
  }

  /** A notifier notifies as many tickets as it was asked to, or all that were taken. */
  lemma {:induction false} NotifyIsAnswered(cap: nat, tasks: nat, schedule: seq<(nat, Choice)>, t: nat)
    requires cap > 0
    requires var s := Run(Init(cap, tasks), schedule); t < |s.pcs| && s.pcs[t].NotifyTry?
    ensures var s := Run(Init(cap, tasks), schedule);
            var s' := Undisturbed(s, t, (pc: Pc) => pc.NotifyTry?);
            t < |s'.pcs| && Notifies(s, s', t, s.pcs[t].add)
  {
    hide Run, Init, Inv;
    RunKeeps(cap, tasks, schedule);
    ShapeOf(Run(Init(cap, tasks), schedule));
  }

  lemma {:induction false} ShapeOf(s: State)
    requires Inv(s)
    ensures Shape(s.gens, s.atom)
  {
  }

  /** A notifier that comes to a ticket wakes whoever waits on its bucket, or leaves a mark
    for whoever comes, and closes the generation only if another round is in the way. */
  lemma {:induction false} ServeIsAnswered(cap: nat, tasks: nat, schedule: seq<(nat, Choice)>, t: nat)
    requires cap > 0
    requires var s := Run(Init(cap, tasks), schedule); t < |s.pcs| && s.pcs[t].NotifyLoad?
    ensures var s := Run(Init(cap, tasks), schedule);
            var s' := Undisturbed(s, t, (pc: Pc) => pc.NotifyCas?);
            var (gen, from, to) := (s.pcs[t].gen, s.pcs[t].from, s.pcs[t].to);
            && Exists(s, gen) && Exists(s', gen) && t < |s'.pcs|
            && match At(s, gen, from).bucket
               case Waiting(waker) => s'.pcs[t] == NotifyWake(gen, from, to, waker) && At(s', gen, from).bucket.Waking?
               case Empty(ticket) =>
                 if ticket == from then
                   s'.pcs[t] == NextTicket(gen, from + 1, to) && At(s', gen, from).bucket == Woken(from)
                 else s'.pcs[t] == ExpandLock(gen, from, to)
               case _ => s'.pcs[t] == ExpandLock(gen, from, to)
  {
    hide Run, Init, Inv, NextTicket;
    RunKeeps(cap, tasks, schedule);
    Exist(Run(Init(cap, tasks), schedule), t);
  }

  /** A waiter that is polled again waits on with its new waker, is done if its ticket was
    notified, or turns to the closing of its generation. */
  lemma {:induction false} PollIsAnswered(cap: nat, tasks: nat, schedule: seq<(nat, Choice)>, t: nat)
    requires cap > 0
    requires var s := Run(Init(cap, tasks), schedule); t < |s.pcs| && s.pcs[t].PollLoad?
    ensures var s := Run(Init(cap, tasks), schedule);
            var s' := Undisturbed(s, t, (pc: Pc) => pc.PollCas?);
            var (gen, ticket, renewed) := (s.pcs[t].gen, s.pcs[t].ticket, s.pcs[t].renewed);
            && Exists(s, gen) && Exists(s', gen) && t < |s'.pcs|
            && match At(s, gen, ticket).bucket
               case Waiting(_) =>
                 s'.pcs[t] == Parked(gen, ticket, renewed) && At(s', gen, ticket).bucket == Waiting(renewed)
               case Waking =>
                 s'.pcs[t] == Idle && At(s', gen, ticket).bucket == Empty(ticket + |s.gens[gen]|)
               case _ => At(s, gen, ticket).bucket.Tombstone? && s'.pcs[t] == ExpandLock(gen, 0, 0)
  {
    hide Run, Init, Inv;
    RunKeeps(cap, tasks, schedule);
    var s := Run(Init(cap, tasks), schedule);
    Exist(s, t);
    WaitAt(s, t);
  }

  /** A waiter puts its waker into the bucket of its ticket, or finds that the ticket was
    notified before, or turns to the closing of the generation because another round is in
    the way. */
  lemma {:induction false} WaitIsAnswered(cap: nat, tasks: nat, schedule: seq<(nat, Choice)>, t: nat)
    requires cap > 0
    requires var s := Run(Init(cap, tasks), schedule);
             t < |s.pcs| && s.pcs[t].EnterCas? && s.pcs[t].seen == Empty(s.pcs[t].ticket)
    ensures var s := Run(Init(cap, tasks), schedule);
            var s' := Undisturbed(s, t, (pc: Pc) => pc.EnterCas?);
            var (gen, ticket, waker) := (s.pcs[t].gen, s.pcs[t].ticket, s.pcs[t].waker);
            && Exists(s, gen) && Exists(s', gen) && t < |s'.pcs|
            && var bucket := At(s, gen, ticket).bucket;
               if bucket == Empty(ticket) then
                 s'.pcs[t] == EnterCheck(gen, ticket, waker) && At(s', gen, ticket).bucket == Waiting(waker)
               else if bucket == Woken(ticket) then
                 s'.pcs[t] == Idle && At(s', gen, ticket).bucket == Empty(ticket + |s.gens[gen]|)
               else s'.pcs[t] == ExpandLock(gen, 0, 0)
  {
    hide Run, Init, Inv;
    RunKeeps(cap, tasks, schedule);
    Exist(Run(Init(cap, tasks), schedule), t);
  }
}
