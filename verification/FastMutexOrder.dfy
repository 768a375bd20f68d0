/** What a caller of the barging mutex gets: sleepers are woken in the order in which they
  went to sleep, and an attempt that nobody disturbs is answered.
 */
module FastMutexOrder {
  import opened Counting
  import opened FastMutex
  import opened FastMutexProof
  import opened Futex
  import opened FutexLaws
  import opened Options

  // ----- the operations a task asks for -----

  /** Between operations a task is idle or has the mutex. */
  predicate BetweenCalls(pc: Pc)
  {
    pc.Idle? || pc.Held?
  }

  /** What the task asked for on its turns between operations, in order. */
  function Calls(tasks: nat, schedule: seq<(nat, Choice)>, t: nat): seq<bool>
    decreases |schedule|
  {
    if schedule == [] then []
    else
      var last := |schedule| - 1;
      var s := Run(Init(tasks), schedule[..last]);
      Calls(tasks, schedule[..last], t)
      + if schedule[last].0 == t && t < |s.pcs| && BetweenCalls(s.pcs[t]) then [schedule[last].1.start] else []
  }

  lemma {:induction false} CallsOne(tasks: nat, schedule: seq<(nat, Choice)>, u: nat, c: Choice, t: nat)
    ensures var s := Run(Init(tasks), schedule);
            Calls(tasks, schedule + [(u, c)], t)
            == Calls(tasks, schedule, t) + if u == t && t < |s.pcs| && BetweenCalls(s.pcs[t]) then [c.start] else []
  {
    hide Run, Init, BetweenCalls;
    assert (schedule + [(u, c)])[..|schedule|] == schedule;
  }

  // ----- sleepers are woken in order -----

  /** Those asleep in the lists, the one that went to sleep first in front. */
  function Sleepers(f: Futex): seq<Waiter>
  {
    Front(f) + f.inbox
  }

  /** On its turn the task goes to sleep, for the first time or again. */
  predicate FallsAsleep(s: State, s': State, t: nat)
  {
    t < |s.pcs| && t < |s'.pcs| && !s.pcs[t].Parked? && s'.pcs[t].Parked?
  }

  /** On its turn the task takes a sleeper in hand, to wake it. */
  predicate Rouses(s: State, s': State, t: nat)
  {
    t < |s.pcs| && t < |s'.pcs| && !s.pcs[t].HandDrop? && s'.pcs[t].HandDrop?
  }

  /** The waits of a run, in the order in which they began. */
  function Slept(tasks: nat, schedule: seq<(nat, Choice)>): seq<Waiter>
    decreases |schedule|
  {
    if schedule == [] then []
    else
      var last := |schedule| - 1;
      var t := schedule[last].0;
      Slept(tasks, schedule[..last])
      + if FallsAsleep(Run(Init(tasks), schedule[..last]), Run(Init(tasks), schedule), t) then [Waiter(t, 0)] else []
  }

  /** The sleepers taken in hand in a run, in that order. */
  function Roused(tasks: nat, schedule: seq<(nat, Choice)>): seq<Waiter>
    decreases |schedule|
  {
    if schedule == [] then []
    else
      var last := |schedule| - 1;
      var t := schedule[last].0;
      Roused(tasks, schedule[..last])
      + if Rouses(Run(Init(tasks), schedule[..last]), Run(Init(tasks), schedule), t) then
          [Run(Init(tasks), schedule).pcs[t].w]
        else []
  }

  lemma {:induction false} EnqueueSleepers(s: State)
    requires Inv(s)
    ensures Front(Enqueue(s.futex)) == Sleepers(s.futex) && Enqueue(s.futex).inbox == []
  {
    SingleQueue(s.futex, Parts(s.pcs));
  }

  lemma {:induction false} LockStepOrder(s: State, t: nat, c: Choice)
    requires Inv(s) && t < |s.pcs| && !Holds(s.pcs[t])
    ensures var s' := Step(s, t, c);
            && |s'.pcs| == |s.pcs| && !Rouses(s, s', t)
            && Sleepers(s'.futex) == Sleepers(s.futex) + if FallsAsleep(s, s', t) then [Waiter(t, 0)] else []
  {
    hide Inv, Law, Lawful;
    TaskAt(s, t);
  }

  lemma {:induction false} UnlockStepOrder(s: State, t: nat, c: Choice)
    requires Inv(s) && t < |s.pcs| && Holds(s.pcs[t])
    ensures var s' := Step(s, t, c);
            && |s'.pcs| == |s.pcs| && !FallsAsleep(s, s', t)
            && Sleepers(s.futex) == (if Rouses(s, s', t) then [s'.pcs[t].w] else []) + Sleepers(s'.futex)
  {
    hide Inv, Law, Lawful, Enqueue;
    TaskAt(s, t);
    EnqueueSleepers(s);
  }

  /** Whoever is taken in hand to be woken is the one that went to sleep first: the sequence
    of those is a prefix of the sequence of waits, and the rest is asleep in that order. */
  lemma {:induction false} RousedInOrder(tasks: nat, schedule: seq<(nat, Choice)>)
    ensures Slept(tasks, schedule) == Roused(tasks, schedule) + Sleepers(Run(Init(tasks), schedule).futex)
    decreases |schedule|
  {
    hide Step, Inv, FallsAsleep, Rouses, Sleepers;
    if schedule == [] {
      NobodyAsleep(tasks);
    } else {
      var last := |schedule| - 1;
      RousedInOrder(tasks, schedule[..last]);
      RunKeeps(tasks, schedule[..last]);
      var p := Run(Init(tasks), schedule[..last]);
      var (t, c) := schedule[last];
      if t >= |p.pcs| {
        NoTurn(p, t);
      } else if Holds(p.pcs[t]) {
        UnlockStepOrder(p, t, c);
      } else {
        LockStepOrder(p, t, c);
      }
    }
  }

  lemma {:induction false} NoTurn(s: State, t: nat)
    requires t >= |s.pcs|
    ensures !FallsAsleep(s, s, t) && !Rouses(s, s, t)
  {
  }

  lemma {:induction false} NobodyAsleep(tasks: nat)
    ensures Sleepers(Init(tasks).futex) == []
  {
  }

  /** However the run goes on, nobody gets in front of anybody: those woken and those asleep
    after them stay in this order, and whoever comes later comes behind. */
  lemma {:induction false} NoOvertaking(tasks: nat, schedule: seq<(nat, Choice)>, more: seq<(nat, Choice)>)
    ensures Roused(tasks, schedule) <= Roused(tasks, schedule + more)
    ensures Roused(tasks, schedule) + Sleepers(Run(Init(tasks), schedule).futex)
         <= Roused(tasks, schedule + more) + Sleepers(Run(Init(tasks), schedule + more).futex)
  {
    hide Run, Init, Slept, Roused, Sleepers;
    RousedInOrder(tasks, schedule);
    RousedInOrder(tasks, schedule + more);
    RunGrows(tasks, schedule, more);
  }

  lemma {:induction false} RunGrows(tasks: nat, schedule: seq<(nat, Choice)>, more: seq<(nat, Choice)>)
    ensures Slept(tasks, schedule) <= Slept(tasks, schedule + more)
    ensures Roused(tasks, schedule) <= Roused(tasks, schedule + more)
    decreases |more|
  {
    hide Run, Init, FallsAsleep, Rouses;
    if more == [] {
      assert schedule + more == schedule;
    } else {
      var all := schedule + more;
      assert all[..|all| - 1] == schedule + more[..|more| - 1];
      RunGrows(tasks, schedule, more[..|more| - 1]);
    }
  }

  // ----- attempts that nobody disturbs are answered -----

  const GO := Choice(true, false)

  /** Two turns of a task with nobody else in between, the second only if it still loops. */
  function Undisturbed(s: State, t: nat, loops: Pc -> bool): State
    requires t < |s.pcs|
  {
    var s' := Step(s, t, GO);
    if t < |s'.pcs| && loops(s'.pcs[t]) then Step(s', t, GO) else s'
  }

  /** A task that asks for the mutex, be it for the first time or woken, takes it if nobody
    has it, and otherwise sleeps behind all others. */
  lemma {:induction false} LockIsAnswered(tasks: nat, schedule: seq<(nat, Choice)>, t: nat)
    requires var s := Run(Init(tasks), schedule); t < |s.pcs| && (s.pcs[t].LockTry? || s.pcs[t].Retry?)
    ensures var s := Run(Init(tasks), schedule);
            var s' := Undisturbed(s, t, (pc: Pc) => pc.LockTry? || pc.Retry?);
            && t < |s'.pcs|
            && if s.holder.None? then s'.pcs[t].Held? && s'.holder == Some(t)
               else s'.pcs[t].Parked? && !s'.pcs[t].woken && Sleepers(s'.futex) == Sleepers(s.futex) + [Waiter(t, 0)]
  {
    hide Run, Init, Inv, Law;
    RunKeeps(tasks, schedule);
    TaskAt(Run(Init(tasks), schedule), t);
  }

  /** Whoever is in a list is counted. */
  lemma {:induction false} SleeperCounted(s: State)
    requires Inv(s) && Sleepers(s.futex) != []
    ensures s.word.waiters > 0
  {
    var w := Sleepers(s.futex)[0];
    var parts := Parts(s.pcs);
    assert w in s.futex.inbox || w in s.futex.queues[0];
    ListedWaits(s.futex, parts, w);
    SumAt(s.pcs, Units, w.task);
  }

  /** Unlocking lets go of the mutex at once if nobody sleeps in a list or somebody is being
    woken; otherwise it goes on to take the first sleeper in hand. */
  lemma {:induction false} UnlockIsAnswered(tasks: nat, schedule: seq<(nat, Choice)>, t: nat)
    requires var s := Run(Init(tasks), schedule); t < |s.pcs| && s.pcs[t].UnlockTry?
    ensures var s := Run(Init(tasks), schedule);
            var s' := Undisturbed(s, t, (pc: Pc) => pc.UnlockTry?);
            && t < |s'.pcs|
            && if s.awake.Some? || Sleepers(s.futex) == [] then s'.pcs[t].Idle? && s'.holder.None?
               else s'.pcs[t].UnlockGuard?
  {
    hide Run, Init;
    RunKeeps(tasks, schedule);
    UnlockAlone(Run(Init(tasks), schedule), t);
  }

  lemma {:induction false} UnlockAlone(s: State, t: nat)
    requires Inv(s) && t < |s.pcs| && s.pcs[t].UnlockTry?
    ensures var s' := Undisturbed(s, t, (pc: Pc) => pc.UnlockTry?);
            && t < |s'.pcs|
            && if s.awake.Some? || Sleepers(s.futex) == [] then s'.pcs[t].Idle? && s'.holder.None?
               else s'.pcs[t].UnlockGuard?
  {
    hide Inv, Law;
    TaskAt(s, t);
    if Sleepers(s.futex) != [] {
      SleeperCounted(s);
    } else if s.awake.None? && s.word.waiters > 0 {
      WaiterListed(s);
    }
  }

  lemma {:induction false} DecideIsAnswered(tasks: nat, schedule: seq<(nat, Choice)>, t: nat)
    requires var s := Run(Init(tasks), schedule); t < |s.pcs| && s.pcs[t].UnlockDecide?
    ensures var s := Run(Init(tasks), schedule);
            var s' := Undisturbed(s, t, (pc: Pc) => pc.UnlockDecide?);
            && Sleepers(s.futex) != []
            && t < |s'.pcs| && s'.pcs[t] == HandDrop(Sleepers(s.futex)[0]) && s'.holder.None? && s'.awake == Some(t)
  {
    hide Run, Init, Inv;
    RunKeeps(tasks, schedule);
    DecideAlone(Run(Init(tasks), schedule), t);
  }

  lemma {:induction false} DecideAlone(s: State, t: nat)
    requires Inv(s) && t < |s.pcs| && s.pcs[t].UnlockDecide?
    ensures var s' := Undisturbed(s, t, (pc: Pc) => pc.UnlockDecide?);
            && Sleepers(s.futex) != []
            && t < |s'.pcs| && s'.pcs[t] == HandDrop(Sleepers(s.futex)[0]) && s'.holder.None? && s'.awake == Some(t)
  {
    hide Inv, Law, Enqueue;
    TaskAt(s, t);
    HolderSees(s);
    WaiterListed(s);
    EnqueueSleepers(s);
    if !s.pcs[t].queued {
      InboxQueued(s);
    }
  }
}
