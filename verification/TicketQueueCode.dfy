/** The ticketed wait queue as its code is written, in the manner of RwLockCode: one object
  with its list of generations, updated in place by compare-and-swap loops, with any steps
  of other tasks in between, shown to go on with a run of the machine in TicketQueue.
 */
module TicketQueueCode {
  import opened Options
  import opened Places
  import opened TicketQueue
  import opened TicketQueueCalls
  import opened TicketQueueProof
  import opened Traces

  /** What a poll comes to; it may also be cut short. */
  datatype Outcome = Ready | Pending | Cut

  class Queue {
    var gens: seq<Generation>
    var atom: Atom
    /** The generation recorded last under the mutex, and who holds the mutex. */
    var newest: nat
    var mutex: Option<nat>
    /** Where every task is, the wakers cloned, and those invoked. */
    var pcs: seq<Pc>
    var wakers: nat
    var rung: set<nat>
    ghost const cap: nat
    ghost const tasks: nat
    ghost var trace: seq<(nat, Choice)>

    function Abs(): State
      reads this
    {
      State(gens, atom, newest, mutex, pcs, wakers, rung)
    }

    /** The state is the outcome of a run. */
    ghost predicate Valid()
      reads this
    {
      cap > 0 && Abs() == Run(Init(cap, tasks), trace)
    }

    /** What the task has asked for so far. */
    ghost function Begun(t: nat): seq<Op>
      reads this`trace
    {
      Calls(cap, tasks, trace, t)
    }

    /** The same object, later; the task has not asked for anything new. */
    twostate predicate Later(t: nat)
      reads this
    {
      && Valid() && |pcs| == old(|pcs|) && Extends(old(trace), trace) && Grown(old(gens), gens)
      && Begun(t) == old(Begun(t))
    }

    /** The same object, later; the task has asked for op and for nothing else. */
    twostate predicate Called(t: nat, op: Op)
      reads this
    {
      && Valid() && |pcs| == old(|pcs|) && Extends(old(trace), trace) && Grown(old(gens), gens)
      && Begun(t) == old(Begun(t)) + [op]
    }

    constructor (cap: nat, tasks: nat)
      requires cap > 0
      ensures Valid() && this.cap == cap && this.tasks == tasks && trace == []
    {
      gens, atom, newest, mutex := [NewGeneration(cap)], TicketQueue.Atom(0, 0, 0), 0, None;
      pcs, wakers, rung := seq(tasks, _ => Idle), 0, {};
      this.cap, this.tasks, trace := cap, tasks, [];
    }

    // ----- the rest of the world -----

    /** A step that was taken is added to the run. */
    ghost method Record(was: State, t: nat, c: Choice)
      requires cap > 0 && was == Run(Init(cap, tasks), trace) && t < |was.pcs| && Abs() == Step(was, t, c)
      modifies this`trace
      ensures Valid() && Extends(old(trace), trace)
      ensures forall i {:trigger Begun(i)} ::
                Begun(i) == old(Begun(i)) + if i == t && BetweenCalls(was.pcs[t]) then [c.op] else []
    {
      hide Step, BetweenCalls;
      forall i: nat
        ensures Calls(cap, tasks, trace + [(t, c)], i)
             == Calls(cap, tasks, trace, i) + if i == t && BetweenCalls(was.pcs[t]) then [c.op] else []
      {
        CallsOne(cap, tasks, trace, t, c, i);
      }
      RunOne(cap, tasks, trace, t, c);
      trace := trace + [(t, c)];
    }

    /** Any other tasks take any steps; none of them moves the caller. */
    method Others(t: nat)
      requires Valid() && t < |pcs|
      modifies this
      ensures Later(t) && pcs[t] == old(pcs[t])
    {
      hide Run, Init, Calls, Extends, Step, Grown;
      ExtendsOrder<(nat, Choice)>();
      GrownOrder();
      var moves: seq<(nat, Choice)> := *;
      var i := 0;
      while i < |moves|
        invariant 0 <= i <= |moves| && Later(t) && pcs[t] == old(pcs[t])
      {
        var (u, c) := moves[i];
        if u < |pcs| && u != t {
          ghost var was := Abs();
          StepMoves(Abs(), u, c);
          var s := Step(Abs(), u, c);
          gens, atom, newest, mutex, pcs, wakers, rung := s.gens, s.atom, s.newest, s.mutex, s.pcs, s.wakers, s.rung;
          Record(was, u, c);
        }
        i := i + 1;
      }
    }

    /** No step of a run reaches code that must not be reached. */
    lemma {:induction false} Safe(t: nat, c: Choice)
      requires Valid() && t < |pcs|
      ensures t < |Step(Abs(), t, c).pcs| && !Step(Abs(), t, c).pcs[t].Crashed?
    {
      hide Step;
      var longer := trace + [(t, c)];
      assert longer[..|longer| - 1] == trace;
      StepMoves(Abs(), t, c);
      NeverUnreachable(cap, tasks, longer, t);
    }

    /** The generation a task works on exists and has buckets. */
    lemma {:induction false} GenExists(t: nat)
      requires Valid() && t < |pcs| && GenOf(pcs[t]).Some?
      ensures Exists(Abs(), GenOf(pcs[t]).value)
    {
      hide Run, Init, Calls, GenOf;
      Safe(t, Choice(StartWait, false, false));
    }

    /** A step of the caller. */
    method Turn(t: nat, next: Pc)
      requires t < |pcs|
      modifies this`pcs
      ensures pcs == old(pcs)[t := next]
    {
      pcs := pcs[t := next];
    }

    // ----- notify() -----

    /** Notifies as many tickets as it is told to, or as were taken, and serves them. */
    method Notify(t: nat, add: nat) returns (done: bool)
      requires Valid() && t < |pcs| && pcs[t] == Idle
      modifies this
      ensures Called(t, StartNotify(add))
      ensures done ==> pcs[t] == Idle && HasNotified(cap, tasks, trace, |old(trace)|, t, add)
    {
      hide Run, Init, Calls, Step, Grown, HasNotified;
      done := NotifyTickets(t, add);
      if done {
        TookEffect(old(trace), t, add);
      }
    }

    lemma {:induction false} TookEffect(before: seq<(nat, Choice)>, t: nat, add: nat)
      requires Valid() && Extends(before, trace) && t < |pcs| && pcs[t] == Idle
      requires var s := Run(Init(cap, tasks), before); t < |s.pcs| && s.pcs[t] == Idle
      requires Calls(cap, tasks, trace, t) == Calls(cap, tasks, before, t) + [StartNotify(add)]
      ensures HasNotified(cap, tasks, trace, |before|, t, add)
    {
      hide Run, Init, Calls, HasNotified;
      assert before + trace[|before|..] == trace;
      NotifyTakesEffect(cap, tasks, before, trace[|before|..], t, add);
    }

    method NotifyTickets(t: nat, add: nat) returns (done: bool)
      requires Valid() && t < |pcs| && pcs[t] == Idle
      modifies this
      ensures Called(t, StartNotify(add)) && (done ==> pcs[t] == Idle)
    {
      hide Run, Init, Calls, Extends, Step, Grown;
      ExtendsOrder<(nat, Choice)>();
      GrownOrder();
      var snap := BeginNotify(t, add);
      done := NotifyFrom(t, add, snap);
    }

    method BeginNotify(t: nat, add: nat) returns (snap: Atom)
      requires Valid() && t < |pcs| && pcs[t] == Idle
      modifies this
      ensures Called(t, StartNotify(add)) && pcs[t] == NotifyTry(add, snap)
    {
      hide Run, Init, Calls, Extends;
      ghost var was := Abs();
      snap := atom;
      Turn(t, NotifyTry(add, snap));
      Record(was, t, Choice(StartNotify(add), false, false));
    }

    /** Both loops of notify(). */
    method NotifyFrom(t: nat, add: nat, begun: Atom) returns (done: bool)
      requires Valid() && t < |pcs| && pcs[t] == NotifyTry(add, begun)
      modifies this
      ensures Later(t) && (done ==> pcs[t] == Idle)
    {
      hide Run, Init, Calls, Extends, Step, Grown;
      ExtendsOrder<(nat, Choice)>();
      GrownOrder();
      var snap, from, to := begun, 0, 0;
      done := false;
      var patience: nat := *;
      while !done && patience > 0
        invariant Later(t) && pcs[t] == if done then NextTicket(snap.gen, from, to) else NotifyTry(add, snap)
      {
        Others(t);
        done, snap, from, to := AttemptCount(t, add, snap);
        patience := patience - 1;
      }
      while done && from < to
        invariant Later(t) && (done ==> pcs[t] == if from < to then NextTicket(snap.gen, from, to) else Idle)
        decreases if from < to then to - from else 0
      {
        var closed: bool;
        done, closed := Serve(t, snap.gen, from, to);
        if closed {
          return;
        }
        from := from + 1;
      }
    }

    /** One round of the first loop: the notified count never exceeds the tickets taken. */
    method AttemptCount(t: nat, add: nat, snap: Atom) returns (ok: bool, seen: Atom, from: nat, to: nat)
      requires Valid() && t < |pcs| && pcs[t] == NotifyTry(add, snap)
      modifies this
      ensures Later(t) && pcs[t] == if ok then NextTicket(seen.gen, from, to) else NotifyTry(add, seen)
    {
      hide Run, Init, Calls, Extends;
      var spurious: bool := *;
      ghost var was := Abs();
      from, to := snap.notifies, Min(snap.notifies + add, snap.waits);
      ok := !spurious && snap == atom;
      seen := atom;
      if ok {
        atom := snap.(notifies := to);
        seen := snap;
        Turn(t, NextTicket(snap.gen, from, to));
      } else {
        Turn(t, NotifyTry(add, seen));
      }
      Record(was, t, Choice(StartWait, false, spurious));
    }

    /** The second loop's body: wake the ticket's waiter, leave it a mark, or close the
      generation because another round is in the way. */
    method Serve(t: nat, gen: nat, from: nat, to: nat) returns (done: bool, closed: bool)
      requires Valid() && t < |pcs| && from < to && pcs[t] == NotifyLoad(gen, from, to)
      modifies this
      ensures Later(t) && (closed && done ==> pcs[t] == Idle)
      ensures !closed && done ==> pcs[t] == NextTicket(gen, from + 1, to)
    {
      hide Run, Init, Calls, Extends, Step, Grown, NextTicket;
      ExtendsOrder<(nat, Choice)>();
      GrownOrder();
      Others(t);
      var seen := LoadForNotify(t, gen, from, to);
      done, closed := false, false;
      var patience: nat := *;
      while !done && !closed && patience > 0
        invariant Later(t) && (closed && done ==> pcs[t] == Idle)
        invariant !closed && done ==> pcs[t] == NextTicket(gen, from + 1, to)
        invariant !closed && !done ==> pcs[t] == NotifyCas(gen, from, to, seen)
      {
        Others(t);
        if seen.Waiting? {
          done, seen := WakeTicket(t, gen, from, to, seen);
        } else if seen == Empty(from) {
          done, seen := MarkTicket(t, gen, from, to, seen);
        } else {
          GiveUpNotify(t, gen, from, to, seen);
          closed := true;
          done := Expand(t, gen, from, to);
        }
        patience := patience - 1;
      }
    }

    method LoadForNotify(t: nat, gen: nat, from: nat, to: nat) returns (seen: Bucket)
      requires Valid() && t < |pcs| && pcs[t] == NotifyLoad(gen, from, to)
      modifies this
      ensures Later(t) && pcs[t] == NotifyCas(gen, from, to, seen)
    {
      hide Run, Init, Calls, Extends;
      GenExists(t);
      ghost var was := Abs();
      seen := gens[gen][from % |gens[gen]|].bucket;
      Turn(t, NotifyCas(gen, from, to, seen));
      Record(was, t, Choice(StartWait, false, false));
    }

    method WakeTicket(t: nat, gen: nat, from: nat, to: nat, seen: Bucket) returns (ok: bool, now: Bucket)
      requires Valid() && t < |pcs| && pcs[t] == NotifyCas(gen, from, to, seen) && seen.Waiting?
      modifies this
      ensures Later(t) && pcs[t] == if ok then NextTicket(gen, from + 1, to) else NotifyCas(gen, from, to, now)
    {
      hide Run, Init, Calls, Extends, Step, Grown;
      ExtendsOrder<(nat, Choice)>();
      GrownOrder();
      ok, now := SwapWaking(t, gen, from, to, seen);
      if ok {
        Others(t);
        RingForNotify(t, gen, from, to, seen.waker);
      }
    }

    method SwapWaking(t: nat, gen: nat, from: nat, to: nat, seen: Bucket) returns (ok: bool, now: Bucket)
      requires Valid() && t < |pcs| && pcs[t] == NotifyCas(gen, from, to, seen) && seen.Waiting?
      modifies this
      ensures Later(t) && pcs[t] == if ok then NotifyWake(gen, from, to, seen.waker) else NotifyCas(gen, from, to, now)
    {
      hide Run, Init, Calls, Extends, NextTicket;
      var spurious: bool := *;
      GenExists(t);
      ghost var was := Abs();
      var place := from % |gens[gen]|;
      var cell := gens[gen][place];
      now := cell.bucket;
      ok := !spurious && seen == now;
      if ok {
        gens := gens[gen := gens[gen][place := Cell(Waking, cell.done, cell.applied + 1)]];
      }
      Turn(t, if ok then NotifyWake(gen, from, to, seen.waker) else NotifyCas(gen, from, to, now));
      Record(was, t, Choice(StartWait, false, spurious));
    }

    method RingForNotify(t: nat, gen: nat, from: nat, to: nat, waker: nat)
      requires Valid() && t < |pcs| && pcs[t] == NotifyWake(gen, from, to, waker)
      modifies this
      ensures Later(t) && pcs[t] == NextTicket(gen, from + 1, to)
    {
      hide Run, Init, Calls, Extends, NextTicket;
      GenExists(t);
      ghost var was := Abs();
      rung := rung + {waker};
      Turn(t, NextTicket(gen, from + 1, to));
      Record(was, t, Choice(StartWait, false, false));
    }

    /** Nobody waits on the ticket yet: whoever comes finds the mark. */
    method MarkTicket(t: nat, gen: nat, from: nat, to: nat, seen: Bucket) returns (ok: bool, now: Bucket)
      requires Valid() && t < |pcs| && pcs[t] == NotifyCas(gen, from, to, seen) && seen == Empty(from)
      modifies this
      ensures Later(t) && pcs[t] == if ok then NextTicket(gen, from + 1, to) else NotifyCas(gen, from, to, now)
    {
      hide Run, Init, Calls, Extends, NextTicket;
      var spurious: bool := *;
      GenExists(t);
      ghost var was := Abs();
      var place := from % |gens[gen]|;
      var cell := gens[gen][place];
      now := cell.bucket;
      ok := !spurious && seen == now;
      if ok {
        gens := gens[gen := gens[gen][place := Cell(Woken(from), cell.done, cell.applied + 1)]];
      }
      Turn(t, if ok then NextTicket(gen, from + 1, to) else NotifyCas(gen, from, to, now));
      Record(was, t, Choice(StartWait, false, spurious));
    }

    method GiveUpNotify(t: nat, gen: nat, from: nat, to: nat, seen: Bucket)
      requires Valid() && t < |pcs| && pcs[t] == NotifyCas(gen, from, to, seen)
      requires !seen.Waiting? && seen != Empty(from)
      modifies this
      ensures Later(t) && pcs[t] == ExpandLock(gen, from, to)
    {
      hide Run, Init, Calls, Extends, NextTicket;
      GenExists(t);
      ghost var was := Abs();
      Turn(t, ExpandLock(gen, from, to));
      Record(was, t, Choice(StartWait, false, false));
    }

    // ----- expand() -----

    /** Returns with the generation closed, by this task or by another one. */
    method Expand(t: nat, gen: nat, from: nat, to: nat) returns (done: bool)
      requires Valid() && t < |pcs| && pcs[t] == ExpandLock(gen, from, to)
      modifies this
      ensures Later(t)
      ensures done ==> pcs[t] == Idle && gen < |gens| && Closed(gens[gen]) && gen < atom.gen && Told(Abs(), gen)
    {
      hide Run, Init, Calls, Extends, Step, Grown;
      ExtendsOrder<(nat, Choice)>();
      GrownOrder();
      var locked, newest_ := false, false;
      var patience: nat := *;
      while !locked && patience > 0
        invariant Later(t)
        invariant pcs[t] == if !locked then ExpandLock(gen, from, to) else if newest_ then Sweep(gen, from, to, 0)
                 else Idle
        invariant locked && !newest_ ==> gen < |gens| && Closed(gens[gen]) && gen < atom.gen && Told(Abs(), gen)
      {
        Others(t);
        locked, newest_ := TryLock(t, gen, from, to);
        patience := patience - 1;
      }
      done := locked;
      if locked && newest_ {
        CloseAll(t, gen, from, to);
        Others(t);
        PublishNew(t, gen);
      }
    }

    method TryLock(t: nat, gen: nat, from: nat, to: nat) returns (locked: bool, newest_: bool)
      requires Valid() && t < |pcs| && pcs[t] == ExpandLock(gen, from, to)
      modifies this
      ensures Later(t)
      ensures pcs[t] == if !locked then ExpandLock(gen, from, to) else if newest_ then Sweep(gen, from, to, 0) else Idle
      ensures locked && !newest_ ==> gen < |gens| && Closed(gens[gen]) && gen < atom.gen && Told(Abs(), gen)
    {
      hide Run, Init, Calls, Extends, Closed;
      ExtendsOrder<(nat, Choice)>();
      GenExists(t);
      locked, newest_ := mutex.None?, newest == gen;
      if locked {
        ghost var was := Abs();
        if newest_ {
          mutex := Some(t);
          Turn(t, Sweep(gen, from, to, 0));
        } else {
          ClosedAfter(t, Choice(StartWait, false, false));
          Turn(t, Idle);
        }
        Record(was, t, Choice(StartWait, false, false));
      }
    }

    /** Whoever finds the generation closed, or closes it, leaves it closed. */
    lemma {:induction false} ClosedAfter(t: nat, c: Choice)
      requires Valid() && t < |pcs| && (pcs[t].ExpandLock? || pcs[t].Publish?) && Step(Abs(), t, c).pcs[t].Idle?
      ensures var s' := Step(Abs(), t, c);
              && pcs[t].gen < |s'.gens| && Closed(s'.gens[pcs[t].gen]) && pcs[t].gen < s'.atom.gen
              && Told(s', pcs[t].gen)
    {
      hide Run, Init, Calls, Step, Closed;
      ExpandLeavesClosed(cap, tasks, trace, t, c);
    }

    /** Closes bucket after bucket, waking whoever waits there, and opens the next
      generation. */
    method CloseAll(t: nat, gen: nat, from: nat, to: nat)
      requires Valid() && t < |pcs| && pcs[t] == Sweep(gen, from, to, 0)
      modifies this
      ensures Later(t) && pcs[t] == Publish(gen)
    {
      hide Run, Init, Calls, Extends, Step, Grown;
      ExtendsOrder<(nat, Choice)>();
      GrownOrder();
      GenExists(t);
      var count := |gens[gen]|;
      var next := 0;
      while next < count
        invariant 0 <= next <= count && Later(t) && pcs[t] == Sweep(gen, from, to, next)
      {
        Others(t);
        SameLength(old(gens), gens, gen);
        CloseOne(t, gen, from, to, next);
        next := next + 1;
      }
      Others(t);
      SameLength(old(gens), gens, gen);
      Open(t, gen, from, to, next);
    }

    method CloseOne(t: nat, gen: nat, from: nat, to: nat, next: nat)
      requires Valid() && t < |pcs| && pcs[t] == Sweep(gen, from, to, next) && gen < |gens| && next < |gens[gen]|
      modifies this
      ensures Later(t) && pcs[t] == Sweep(gen, from, to, next + 1)
    {
      hide Run, Init, Calls, Extends, Step, Grown;
      ExtendsOrder<(nat, Choice)>();
      GrownOrder();
      var was := SwapTombstone(t, gen, from, to, next);
      if was.Waiting? {
        Others(t);
        RingForSweep(t, gen, from, to, next, was.waker);
      }
    }

    method SwapTombstone(t: nat, gen: nat, from: nat, to: nat, next: nat) returns (found: Bucket)
      requires Valid() && t < |pcs| && pcs[t] == Sweep(gen, from, to, next) && gen < |gens| && next < |gens[gen]|
      modifies this
      ensures Later(t)
      ensures pcs[t] == if found.Waiting? then SweepWake(gen, from, to, next, found.waker)
               else Sweep(gen, from, to, next + 1)
    {
      hide Run, Init, Calls, Extends;
      GenExists(t);
      InRange(next, |gens[gen]|);
      ghost var was := Abs();
      var cell := gens[gen][next];
      found := cell.bucket;
      gens := gens[gen := gens[gen][next := cell.(bucket := Tombstone)]];
      Turn(t, if found.Waiting? then SweepWake(gen, from, to, next, found.waker) else Sweep(gen, from, to, next + 1));
      Record(was, t, Choice(StartWait, false, false));
    }

    method RingForSweep(t: nat, gen: nat, from: nat, to: nat, next: nat, waker: nat)
      requires Valid() && t < |pcs| && pcs[t] == SweepWake(gen, from, to, next, waker)
      modifies this
      ensures Later(t) && pcs[t] == Sweep(gen, from, to, next + 1)
    {
      hide Run, Init, Calls, Extends;
      GenExists(t);
      ghost var was := Abs();
      rung := rung + {waker};
      Turn(t, Sweep(gen, from, to, next + 1));
      Record(was, t, Choice(StartWait, false, false));
    }

    method Open(t: nat, gen: nat, from: nat, to: nat, next: nat)
      requires Valid() && t < |pcs| && pcs[t] == Sweep(gen, from, to, next) && gen < |gens| && next == |gens[gen]|
      modifies this
      ensures Later(t) && pcs[t] == Publish(gen)
    {
      hide Run, Init, Calls, Extends;
      GenExists(t);
      ghost var was := Abs();
      gens, atom := gens + [NewGeneration(2 * |gens[gen]|)], TicketQueue.Atom(|gens|, 0, 0);
      Turn(t, Publish(gen));
      Record(was, t, Choice(StartWait, false, false));
    }

    /** Records the new generation and lets go of the mutex. */
    method PublishNew(t: nat, gen: nat)
      requires Valid() && t < |pcs| && pcs[t] == Publish(gen)
      modifies this
      ensures Later(t) && pcs[t] == Idle && gen < |gens| && Closed(gens[gen]) && gen < atom.gen && Told(Abs(), gen)
    {
      hide Run, Init, Calls, Extends, Closed;
      GenExists(t);
      ClosedAfter(t, Choice(StartWait, false, false));
      ghost var was := Abs();
      newest, mutex := gen + 1, None;
      Turn(t, Idle);
      Record(was, t, Choice(StartWait, false, false));
    }

    // ----- waiting -----

    /** The first poll: takes a ticket and waits on its bucket, unless it was notified
      already, the generation is closed, or the condition does not hold once the waker is in
      the bucket. */
    method PollEnter(t: nat, condition: bool) returns (r: Outcome)
      requires Valid() && t < |pcs| && pcs[t] == Idle
      modifies this
      ensures Called(t, StartWait) && (r.Ready? ==> pcs[t] == Idle) && (r.Pending? ==> pcs[t].Parked? && condition)
    {
      hide Run, Init, Calls, Extends, Step, Grown;
      ExtendsOrder<(nat, Choice)>();
      GrownOrder();
      var snap := BeginWait(t);
      var taken, waker := false, 0;
      var patience: nat := *;
      while !taken && patience > 0
        invariant Called(t, StartWait)
        invariant pcs[t] == if taken then EnterCas(snap.gen, snap.waits, waker, Empty(snap.waits)) else EnterTry(snap)
      {
        Others(t);
        taken, snap, waker := TakeTicket(t, snap);
        patience := patience - 1;
      }
      if taken {
        r := WaitOn(t, snap.gen, snap.waits, waker, condition);
      } else {
        r := Cut;
      }
    }

    method BeginWait(t: nat) returns (snap: Atom)
      requires Valid() && t < |pcs| && pcs[t] == Idle
      modifies this
      ensures Called(t, StartWait) && pcs[t] == EnterTry(snap)
    {
      hide Run, Init, Calls, Extends;
      ghost var was := Abs();
      snap := atom;
      Turn(t, EnterTry(snap));
      Record(was, t, Choice(StartWait, false, false));
    }

    method TakeTicket(t: nat, snap: Atom) returns (ok: bool, seen: Atom, waker: nat)
      requires Valid() && t < |pcs| && pcs[t] == EnterTry(snap)
      modifies this
      ensures Later(t)
      ensures pcs[t] == if ok then EnterCas(seen.gen, seen.waits, waker, Empty(seen.waits)) else EnterTry(seen)
    {
      hide Run, Init, Calls, Extends;
      var spurious: bool := *;
      ghost var was := Abs();
      ok := !spurious && snap == atom;
      seen, waker := atom, wakers;
      if ok {
        seen := snap;
        atom, wakers := snap.(waits := snap.waits + 1), wakers + 1;
        Turn(t, EnterCas(snap.gen, snap.waits, waker, Empty(snap.waits)));
      } else {
        Turn(t, EnterTry(seen));
      }
      Record(was, t, Choice(StartWait, false, spurious));
    }

    /** The loop over the bucket. */
    method WaitOn(t: nat, gen: nat, ticket: nat, waker: nat, condition: bool) returns (r: Outcome)
      requires Valid() && t < |pcs| && pcs[t] == EnterCas(gen, ticket, waker, Empty(ticket))
      modifies this
      ensures Later(t) && (r.Ready? ==> pcs[t] == Idle) && (r.Pending? ==> pcs[t].Parked? && condition)
    {
      hide Run, Init, Calls, Extends, Step, Grown;
      ExtendsOrder<(nat, Choice)>();
      GrownOrder();
      var seen := Empty(ticket);
      var ok := false;
      var patience: nat := *;
      while patience > 0
        invariant Later(t) && pcs[t] == EnterCas(gen, ticket, waker, seen)
      {
        Others(t);
        if seen == Empty(ticket) {
          ok, seen := SwapWaiting(t, gen, ticket, waker, seen);
          if ok {
            r := CheckCondition(t, gen, ticket, waker, condition);
            return;
          }
        } else if seen == Woken(ticket) {
          ok, seen := SwapWoken(t, gen, ticket, waker, seen);
          if ok {
            return Ready;
          }
        } else {
          GiveUpEnter(t, gen, ticket, waker, seen);
          ok := Expand(t, gen, 0, 0);
          return if ok then Ready else Cut;
        }
        patience := patience - 1;
      }
      return Cut;
    }

    method SwapWaiting(t: nat, gen: nat, ticket: nat, waker: nat, seen: Bucket) returns (ok: bool, now: Bucket)
      requires Valid() && t < |pcs| && pcs[t] == EnterCas(gen, ticket, waker, seen) && seen == Empty(ticket)
      modifies this
      ensures Later(t) && pcs[t] == if ok then EnterCheck(gen, ticket, waker) else EnterCas(gen, ticket, waker, now)
    {
      hide Run, Init, Calls, Extends;
      var spurious: bool := *;
      GenExists(t);
      ghost var was := Abs();
      var place := ticket % |gens[gen]|;
      var cell := gens[gen][place];
      now := cell.bucket;
      ok := !spurious && seen == now;
      if ok {
        gens := gens[gen := gens[gen][place := cell.(bucket := Waiting(waker))]];
      }
      Turn(t, if ok then EnterCheck(gen, ticket, waker) else EnterCas(gen, ticket, waker, now));
      Record(was, t, Choice(StartWait, false, spurious));
    }

    /** The ticket was notified before the waiter came: the bucket is ready for the next
      round. */
    method SwapWoken(t: nat, gen: nat, ticket: nat, waker: nat, seen: Bucket) returns (ok: bool, now: Bucket)
      requires Valid() && t < |pcs| && pcs[t] == EnterCas(gen, ticket, waker, seen) && seen == Woken(ticket)
      modifies this
      ensures Later(t) && pcs[t] == if ok then Idle else EnterCas(gen, ticket, waker, now)
    {
      hide Run, Init, Calls, Extends;
      var spurious: bool := *;
      GenExists(t);
      ghost var was := Abs();
      var place := ticket % |gens[gen]|;
      var cell := gens[gen][place];
      now := cell.bucket;
      ok := !spurious && seen == now;
      if ok {
        gens := gens[gen := gens[gen][place := Cell(Empty(ticket + |gens[gen]|), cell.done + 1, cell.applied)]];
      }
      Turn(t, if ok then Idle else EnterCas(gen, ticket, waker, now));
      Record(was, t, Choice(StartWait, false, spurious));
    }

    method GiveUpEnter(t: nat, gen: nat, ticket: nat, waker: nat, seen: Bucket)
      requires Valid() && t < |pcs| && pcs[t] == EnterCas(gen, ticket, waker, seen)
      requires seen != Empty(ticket) && seen != Woken(ticket)
      modifies this
      ensures Later(t) && pcs[t] == ExpandLock(gen, 0, 0)
    {
      hide Run, Init, Calls, Extends;
      GenExists(t);
      ghost var was := Abs();
      Turn(t, ExpandLock(gen, 0, 0));
      Record(was, t, Choice(StartWait, false, false));
    }

    /** Once parked the condition is evaluated; if it fails one ticket is notified. */
    method CheckCondition(t: nat, gen: nat, ticket: nat, waker: nat, condition: bool) returns (r: Outcome)
      requires Valid() && t < |pcs| && pcs[t] == EnterCheck(gen, ticket, waker)
      modifies this
      ensures Later(t) && (r.Ready? ==> pcs[t] == Idle) && (r.Pending? ==> pcs[t].Parked? && condition)
    {
      hide Run, Init, Calls, Extends, Step, Grown;
      ExtendsOrder<(nat, Choice)>();
      GrownOrder();
      Others(t);
      var snap := AfterCheck(t, gen, ticket, waker, condition);
      if condition {
        r := Pending;
      } else {
        var done := NotifyFrom(t, 1, snap);
        r := if done then Ready else Cut;
      }
    }

    method AfterCheck(t: nat, gen: nat, ticket: nat, waker: nat, holds: bool) returns (snap: Atom)
      requires Valid() && t < |pcs| && pcs[t] == EnterCheck(gen, ticket, waker)
      modifies this
      ensures Later(t) && pcs[t] == if holds then Parked(gen, ticket, waker) else NotifyTry(1, snap)
    {
      hide Run, Init, Calls, Extends;
      GenExists(t);
      ghost var was := Abs();
      snap := atom;
      Turn(t, if holds then Parked(gen, ticket, waker) else NotifyTry(1, snap));
      Record(was, t, Choice(StartWait, holds, false));
    }

    /** A later poll: renews the waker, or finds that the ticket was notified or the
      generation closed; it finds nothing else. */
    method PollWaiting(t: nat) returns (r: Outcome)
      requires Valid() && t < |pcs| && pcs[t].Parked?
      modifies this
      ensures Called(t, StartWait) && (r.Ready? ==> pcs[t] == Idle) && (r.Pending? ==> pcs[t].Parked?)
    {
      hide Run, Init, Calls, Extends, Step, Grown;
      ExtendsOrder<(nat, Choice)>();
      GrownOrder();
      var gen, ticket, waker := pcs[t].gen, pcs[t].ticket, pcs[t].waker;
      var renewed := CloneWaker(t, gen, ticket, waker);
      Others(t);
      var seen := LoadForPoll(t, gen, ticket, waker, renewed);
      var ok := false;
      var patience: nat := *;
      while patience > 0
        invariant Called(t, StartWait) && pcs[t] == PollCas(gen, ticket, waker, renewed, seen)
      {
        Others(t);
        match seen {
          case Waiting(_) =>
            ok, seen := Renew(t, gen, ticket, waker, renewed, seen);
            if ok {
              return Pending;
            }
          case Waking =>
            ok, seen := FinishTicket(t, gen, ticket, waker, renewed, seen);
            if ok {
              return Ready;
            }
          case Tombstone =>
            GiveUpPoll(t, gen, ticket, waker, renewed);
            ok := Expand(t, gen, 0, 0);
            return if ok then Ready else Cut;
          case _ =>
            NothingElse(t);
            assert false;
        }
        patience := patience - 1;
      }
      return Cut;
    }

    lemma {:induction false} NothingElse(t: nat)
      requires Valid() && t < |pcs| && pcs[t].PollCas?
      ensures pcs[t].seen.Waiting? || pcs[t].seen.Waking? || pcs[t].seen.Tombstone?
    {
      hide Run, Init;
      Safe(t, Choice(StartWait, false, false));
    }

    method CloneWaker(t: nat, gen: nat, ticket: nat, waker: nat) returns (renewed: nat)
      requires Valid() && t < |pcs| && pcs[t] == Parked(gen, ticket, waker)
      modifies this
      ensures Called(t, StartWait) && pcs[t] == PollLoad(gen, ticket, waker, renewed)
    {
      hide Run, Init, Calls, Extends;
      GenExists(t);
      ghost var was := Abs();
      renewed, wakers := wakers, wakers + 1;
      Turn(t, PollLoad(gen, ticket, waker, renewed));
      Record(was, t, Choice(StartWait, false, false));
    }

    method LoadForPoll(t: nat, gen: nat, ticket: nat, waker: nat, renewed: nat) returns (seen: Bucket)
      requires Valid() && t < |pcs| && pcs[t] == PollLoad(gen, ticket, waker, renewed)
      modifies this
      ensures Later(t) && pcs[t] == PollCas(gen, ticket, waker, renewed, seen)
    {
      hide Run, Init, Calls, Extends;
      GenExists(t);
      ghost var was := Abs();
      seen := gens[gen][ticket % |gens[gen]|].bucket;
      Turn(t, PollCas(gen, ticket, waker, renewed, seen));
      Record(was, t, Choice(StartWait, false, false));
    }

    method Renew(t: nat, gen: nat, ticket: nat, waker: nat, renewed: nat, seen: Bucket) returns (ok: bool, now: Bucket)
      requires Valid() && t < |pcs| && pcs[t] == PollCas(gen, ticket, waker, renewed, seen) && seen.Waiting?
      modifies this
      ensures Later(t) &&
          pcs[t] == if ok then Parked(gen, ticket, renewed) else PollCas(gen, ticket, waker, renewed, now)
    {
      hide Run, Init, Calls, Extends;
      var spurious: bool := *;
      GenExists(t);
      ghost var was := Abs();
      var place := ticket % |gens[gen]|;
      var cell := gens[gen][place];
      now := cell.bucket;
      ok := !spurious && seen == now;
      if ok {
        gens := gens[gen := gens[gen][place := cell.(bucket := Waiting(renewed))]];
      }
      Turn(t, if ok then Parked(gen, ticket, renewed) else PollCas(gen, ticket, waker, renewed, now));
      Record(was, t, Choice(StartWait, false, spurious));
    }

    method FinishTicket(t: nat, gen: nat, ticket: nat, waker: nat, renewed: nat, seen: Bucket)
      returns (ok: bool, now: Bucket)
      requires Valid() && t < |pcs| && pcs[t] == PollCas(gen, ticket, waker, renewed, seen) && seen.Waking?
      modifies this
      ensures Later(t) && pcs[t] == if ok then Idle else PollCas(gen, ticket, waker, renewed, now)
    {
      hide Run, Init, Calls, Extends;
      var spurious: bool := *;
      GenExists(t);
      ghost var was := Abs();
      var place := ticket % |gens[gen]|;
      var cell := gens[gen][place];
      now := cell.bucket;
      ok := !spurious && seen == now;
      if ok {
        gens := gens[gen := gens[gen][place := Cell(Empty(ticket + |gens[gen]|), cell.done + 1, cell.applied)]];
      }
      Turn(t, if ok then Idle else PollCas(gen, ticket, waker, renewed, now));
      Record(was, t, Choice(StartWait, false, spurious));
    }

    method GiveUpPoll(t: nat, gen: nat, ticket: nat, waker: nat, renewed: nat)
      requires Valid() && t < |pcs| && pcs[t] == PollCas(gen, ticket, waker, renewed, Tombstone)
      modifies this
      ensures Later(t) && pcs[t] == ExpandLock(gen, 0, 0)
    {
      hide Run, Init, Calls, Extends;
      GenExists(t);
      ghost var was := Abs();
      Turn(t, ExpandLock(gen, 0, 0));
      Record(was, t, Choice(StartWait, false, false));
    }
  }
}
