/** What a caller of the fair mutex and its condition variable gets: notify moves as many
  waiters as it was asked to, a dropped wait keeps nothing, and an attempt that nobody
  disturbs is answered.
 */
module FairMutexCalls {
  import opened FairMutex
  import opened FairMutexOrder
  import opened FairMutexProof
  import opened Futex
  import opened FutexLaws
  import opened Options

  // ----- the operations a task asks for -----

  /** Between operations a task is idle or has the mutex. */
  predicate BetweenCalls(pc: Pc)
  {
    pc.Idle? || pc.Locked?
  }

  /** What the task asked for on its turns at rest, in order. */
  function Calls(tasks: nat, schedule: seq<(nat, Choice)>, t: nat): seq<Op>
    decreases |schedule|
  {
    if schedule == [] then []
    else
      var last := |schedule| - 1;
      var s := Run(Init(tasks), schedule[..last]);
      Calls(tasks, schedule[..last], t)
      + if schedule[last].0 == t && t < |s.tasks| && BetweenCalls(s.tasks[t].pc) then [schedule[last].1.op] else []
  }

  lemma {:induction false} CallsOne(tasks: nat, schedule: seq<(nat, Choice)>, u: nat, c: Choice, t: nat)
    ensures var s := Run(Init(tasks), schedule);
            Calls(tasks, schedule + [(u, c)], t)
            == Calls(tasks, schedule, t) + if u == t && t < |s.tasks| && BetweenCalls(s.tasks[t].pc) then [c.op] else []
  {
    hide Run, Init, BetweenCalls;
    assert (schedule + [(u, c)])[..|schedule|] == schedule;
  }

  lemma {:induction false} CallsGrow(tasks: nat, schedule: seq<(nat, Choice)>, more: seq<(nat, Choice)>, t: nat)
    ensures Calls(tasks, schedule, t) <= Calls(tasks, schedule + more, t)
    decreases |more|
  {
    hide Run, Init, BetweenCalls;
    if more == [] {
      assert schedule + more == schedule;
    } else {
      var last := |more| - 1;
      CallsGrow(tasks, schedule, more[..last], t);
      assert schedule + more == schedule + more[..last] + [more[last]];
      CallsOne(tasks, schedule + more[..last], more[last].0, more[last].1, t);
    }
  }

  /** How many waiters the notifier is to move. */
  function Asked(pc: Pc): Option<nat>
  {
    match pc
    case NotifyShare(_, count) => Some(count)
    case NotifyBorrow(_, count) => Some(count)
    case NotifyTake(_, count) => Some(count)
    case _ => None
  }

  lemma {:induction false} AskedLock(s: State, t: nat, c: Choice)
    requires t < |s.tasks|
    requires var pc := s.tasks[t].pc; pc.Idle? || pc.LockTry? || pc.Parked? || pc.Locked? || pc.WaitTry?
    requires Asked(Step(s, t, c).tasks[t].pc).Some?
    ensures s.tasks[t].pc.Locked? && c.op.StartNotify? && Asked(Step(s, t, c).tasks[t].pc) == Some(c.op.count)
  {
  }

  lemma {:induction false} AskedUnlock(s: State, t: nat, c: Choice)
    requires t < |s.tasks|
    requires var pc := s.tasks[t].pc;
             pc.UnlockShare? || pc.UnlockBorrow? || pc.UnlockRelock? || pc.HandDrop? || pc.HandWake? || pc.UnlockLeave?
    ensures |Step(s, t, c).tasks| == |s.tasks| && Asked(Step(s, t, c).tasks[t].pc).None?
  {
  }

  lemma {:induction false} AskedDecide(s: State, t: nat, c: Choice)
    requires t < |s.tasks|
    requires s.tasks[t].pc.UnlockPop? || s.tasks[t].pc.UnlockDecide? || s.tasks[t].pc.UnlockFree?
    ensures |Step(s, t, c).tasks| == |s.tasks| && Asked(Step(s, t, c).tasks[t].pc).None?
  {
    hide Front, Enqueue, Pop;
  }

  lemma {:induction false} AskedNotify(s: State, t: nat, c: Choice)
    requires t < |s.tasks| && Notifying(s.tasks[t].pc)
    ensures |Step(s, t, c).tasks| == |s.tasks|
    ensures Asked(Step(s, t, c).tasks[t].pc).Some? ==> Asked(Step(s, t, c).tasks[t].pc) == Asked(s.tasks[t].pc)
  {
    hide Rehome, Enqueue, Pop;
    if s.tasks[t].pc.NotifyPush? {
      RehomeTouches(s.tasks[t := s.tasks[t].(pc := NotifyLeaveMutex)], s.tasks[t].pc.list, t);
    }
  }

  lemma {:induction false} AskedCancel(s: State, t: nat, c: Choice)
    requires t < |s.tasks| && (Cancelling(s.tasks[t].pc) || s.tasks[t].pc.Unimplemented? || s.tasks[t].pc.Crashed?)
    ensures |Step(s, t, c).tasks| == |s.tasks| && Asked(Step(s, t, c).tasks[t].pc).None?
  {
    hide Enqueue, Unlink;
  }

  lemma {:induction false} AskedFollows(s: State, t: nat, c: Choice)
    requires t < |s.tasks| && t < |Step(s, t, c).tasks| && Asked(Step(s, t, c).tasks[t].pc).Some?
    ensures var next := Asked(Step(s, t, c).tasks[t].pc);
            if BetweenCalls(s.tasks[t].pc) then c.op.StartNotify? && next == Some(c.op.count)
            else next == Asked(s.tasks[t].pc)
  {
    hide Step, Asked;
    var pc := s.tasks[t].pc;
    if pc.UnlockPop? || pc.UnlockDecide? || pc.UnlockFree? {
      AskedDecide(s, t, c);
    } else if Releasing(pc) || pc.UnlockLeave? {
      AskedUnlock(s, t, c);
    } else if Notifying(pc) {
      AskedNotify(s, t, c);
    } else if Cancelling(pc) || pc.Unimplemented? || pc.Crashed? {
      AskedCancel(s, t, c);
    } else {
      AskedLock(s, t, c);
    }
  }

  /** In every run a notifier that has not taken its waiters yet is to move as many as the
    caller asked for when it began. */
  lemma {:induction false} NotifyAsks(tasks: nat, schedule: seq<(nat, Choice)>, t: nat)
    requires var s := Run(Init(tasks), schedule); t < |s.tasks| && Asked(s.tasks[t].pc).Some?
    ensures var calls := Calls(tasks, schedule, t);
            && calls != []
            && calls[|calls| - 1] == StartNotify(Asked(Run(Init(tasks), schedule).tasks[t].pc).value)
    decreases |schedule|
  {
    hide Step, Asked;
    if schedule == [] {
      NobodyAsks(tasks);
    } else {
      var last := |schedule| - 1;
      var p := Run(Init(tasks), schedule[..last]);
      var (u, c) := schedule[last];
      if u < |p.tasks| {
        OwnTurn(p, u, c);
        if u == t {
          AskedFollows(p, t, c);
        } else {
          StepOfOther(p, u, c, t);
        }
      }
      if Asked(p.tasks[t].pc).Some? {
        NotifyAsks(tasks, schedule[..last], t);
      }
      hide Run;
    }
  }

  lemma {:induction false} NobodyAsks(tasks: nat)
    ensures forall i :: 0 <= i < tasks ==> Asked(Init(tasks).tasks[i].pc).None?
  {
  }

  // ----- a condition variable that was never waited for -----

  /** Without a mutex nobody waits to be notified and nobody notifies. */
  predicate Fresh(s: State)
  {
    s.used == 0 ==>
      && s.c.inbox == [] && Front(s.c) == []
      && forall i :: 0 <= i < |s.tasks| ==> !Notifying(s.tasks[i].pc)
  }

  lemma {:induction false} FreshLock(s: State, t: nat, c: Choice)
    requires t < |s.tasks| && Fresh(s)
    requires var pc := s.tasks[t].pc; pc.Idle? || pc.LockTry? || pc.Parked? || pc.Locked? || pc.WaitTry?
    ensures Fresh(Step(s, t, c))
  {
    hide Front;
  }

  lemma {:induction false} FreshUnlock(s: State, t: nat, c: Choice)
    requires t < |s.tasks| && Fresh(s)
    requires var pc := s.tasks[t].pc;
             pc.UnlockShare? || pc.UnlockBorrow? || pc.UnlockRelock? || pc.HandDrop? || pc.HandWake? || pc.UnlockLeave?
    ensures Fresh(Step(s, t, c))
  {
    hide Front;
  }

  lemma {:induction false} FreshDecide(s: State, t: nat, c: Choice)
    requires t < |s.tasks| && Fresh(s)
    requires s.tasks[t].pc.UnlockPop? || s.tasks[t].pc.UnlockDecide? || s.tasks[t].pc.UnlockFree?
    ensures Fresh(Step(s, t, c))
  {
    hide Enqueue, Pop, Front;
  }

  lemma {:induction false} FreshCancel(s: State, t: nat, c: Choice)
    requires t < |s.tasks| && Fresh(s) && !s.tasks[t].pc.CancelFlip?
    requires Cancelling(s.tasks[t].pc) || s.tasks[t].pc.Unimplemented? || s.tasks[t].pc.Crashed?
    ensures Fresh(Step(s, t, c))
  {
    hide Front;
    SameFront(s.c);
  }

  lemma {:induction false} FreshFlip(s: State, t: nat, c: Choice)
    requires t < |s.tasks| && Fresh(s) && s.tasks[t].pc.CancelFlip?
    ensures Fresh(Step(s, t, c))
  {
    hide Unlink, Enqueue, Front;
    if s.used == 0 {
      EmptyStays(s.c, Waiter(t, 0));
    }
  }

  lemma {:induction false} EmptyStays(f: Futex, w: Waiter)
    requires f.inbox == [] && Front(f) == []
    ensures Unlink(f, w).inbox == [] && Front(Include(Unlink(f, w))) == []
    ensures Unlink(Enqueue(f), w).inbox == [] && Front(Include(Unlink(Enqueue(f), w))) == []
  {
  }

  lemma {:induction false} SameFront(f: Futex)
    ensures Front(Exclude(f)) == Front(f) == Front(Include(f))
  {
  }

  lemma {:induction false} NotifyUses(s: State, t: nat, c: Choice)
    requires t < |s.tasks| && Notifying(s.tasks[t].pc) && s.used != 0
    ensures Step(s, t, c).used != 0
  {
    hide Rehome, Enqueue;
  }

  lemma {:induction false} FreshStep(s: State, t: nat, c: Choice)
    requires t < |s.tasks| && Fresh(s)
    ensures Fresh(Step(s, t, c))
  {
    hide Step;
    var pc := s.tasks[t].pc;
    if Notifying(pc) {
      NotifyUses(s, t, c);
    } else if pc.UnlockPop? || pc.UnlockDecide? || pc.UnlockFree? {
      FreshDecide(s, t, c);
    } else if Releasing(pc) || pc.UnlockLeave? {
      FreshUnlock(s, t, c);
    } else if pc.CancelFlip? {
      FreshFlip(s, t, c);
    } else if Cancelling(pc) || pc.Unimplemented? || pc.Crashed? {
      FreshCancel(s, t, c);
    } else {
      FreshLock(s, t, c);
    }
  }

  /** A condition variable without a mutex has an empty waiting room. */
  lemma {:induction false} UnusedIsEmpty(tasks: nat, schedule: seq<(nat, Choice)>)
    ensures Fresh(Run(Init(tasks), schedule))
    ensures Run(Init(tasks), schedule).used == 0 ==> View(Run(Init(tasks), schedule)).room == []
    decreases |schedule|
  {
    hide Step, Fresh, View;
    if schedule == [] {
      StartsFresh(tasks);
    } else {
      var last := |schedule| - 1;
      UnusedIsEmpty(tasks, schedule[..last]);
      var p := Run(Init(tasks), schedule[..last]);
      var (t, c) := schedule[last];
      if t < |p.tasks| {
        FreshStep(p, t, c);
      }
    }
    if Run(Init(tasks), schedule).used == 0 {
      FreshIsEmpty(Run(Init(tasks), schedule));
    }
  }

  lemma {:induction false} StartsFresh(tasks: nat)
    ensures Fresh(Init(tasks))
  {
  }

  lemma {:induction false} FreshIsEmpty(s: State)
    requires Fresh(s) && s.used == 0
    ensures View(s).room == []
  {
  }

  // ----- notify moves what it was asked to -----

  /** On the i-th turn the task takes the first count waiters of the room, or all of them,
    in order. */
  predicate TakesAt(tasks: nat, schedule: seq<(nat, Choice)>, i: nat, t: nat, count: nat, list: seq<Waiter>)
    requires i < |schedule|
  {
    var s := Run(Init(tasks), schedule[..i]);
    var s' := Run(Init(tasks), schedule[..i + 1]);
    && schedule[i].0 == t && t < |s.tasks| && t < |s'.tasks|
    && s.tasks[t].pc.NotifyTake? && s'.tasks[t].pc == NotifyDrop(list)
    && list == View(s).room[..Min(count, |View(s).room|)]
  }

  /** On the j-th turn the task appends the list to the line, and takes it out of the room. */
  predicate AppendsAt(tasks: nat, schedule: seq<(nat, Choice)>, j: nat, t: nat, list: seq<Waiter>)
    requires j < |schedule|
  {
    var s := Run(Init(tasks), schedule[..j]);
    var s' := Run(Init(tasks), schedule[..j + 1]);
    schedule[j].0 == t && View(s').line == View(s).line + list && View(s).room == list + View(s').room
  }

  /** On the i-th turn the task asks to notify, and nobody is in the room. */
  predicate NobodyAt(tasks: nat, schedule: seq<(nat, Choice)>, i: nat, t: nat)
    requires i < |schedule|
  {
    schedule[i].0 == t && schedule[i].1.op.StartNotify? && View(Run(Init(tasks), schedule[..i])).room == []
  }

  predicate Took(tasks: nat, schedule: seq<(nat, Choice)>, from: nat, t: nat, count: nat, list: seq<Waiter>)
  {
    exists i :: from <= i < |schedule| && TakesAt(tasks, schedule, i, t, count, list)
  }

  /** From some turn on the first waiters were taken, and on a later one appended. */
  ghost predicate Moved(tasks: nat, schedule: seq<(nat, Choice)>, from: nat, t: nat, count: nat)
  {
    || (exists i :: from <= i < |schedule| && NobodyAt(tasks, schedule, i, t))
    || Took(tasks, schedule, from, t, count, [])
    || exists i, j, list :: from <= i < j < |schedule| && TakesAt(tasks, schedule, i, t, count, list)
         && AppendsAt(tasks, schedule, j, t, list)
  }

  lemma {:induction false} TookStays(tasks: nat, schedule: seq<(nat, Choice)>, from: nat, t: nat, count: nat,
        list: seq<Waiter>, turn: (nat, Choice))
    requires Took(tasks, schedule, from, t, count, list)
    ensures Took(tasks, schedule + [turn], from, t, count, list)
  {
    hide Run, Init, View;
    var i :| from <= i < |schedule| && TakesAt(tasks, schedule, i, t, count, list);
    var all := schedule + [turn];
    assert all[..i] == schedule[..i] && all[..i + 1] == schedule[..i + 1];
    assert TakesAt(tasks, all, i, t, count, list);
  }

  lemma {:induction false} MovedStays(tasks: nat, schedule: seq<(nat, Choice)>, from: nat, t: nat, count: nat,
        turn: (nat, Choice))
    requires Moved(tasks, schedule, from, t, count)
    ensures Moved(tasks, schedule + [turn], from, t, count)
  {
    hide Run, Init, View;
    var all := schedule + [turn];
    if i :| from <= i < |schedule| && NobodyAt(tasks, schedule, i, t) {
      assert all[..i] == schedule[..i];
      assert NobodyAt(tasks, all, i, t);
    } else if Took(tasks, schedule, from, t, count, []) {
      TookStays(tasks, schedule, from, t, count, [], turn);
    } else {
      var i, j, list :| from <= i < j < |schedule| && TakesAt(tasks, schedule, i, t, count, list)
        && AppendsAt(tasks, schedule, j, t, list);
      assert all[..i] == schedule[..i] && all[..i + 1] == schedule[..i + 1];
      assert all[..j] == schedule[..j] && all[..j + 1] == schedule[..j + 1];
      assert TakesAt(tasks, all, i, t, count, list) && AppendsAt(tasks, all, j, t, list);
    }
  }

  /** How far a notifier has come that began after the first turns of the run. */
  ghost predicate Progress(tasks: nat, schedule: seq<(nat, Choice)>, from: nat, t: nat, count: nat)
  {
    var s := Run(Init(tasks), schedule);
    t < |s.tasks| && ProgressAt(tasks, schedule, from, t, count, s.tasks[t].pc)
  }

  ghost predicate ProgressAt(tasks: nat, schedule: seq<(nat, Choice)>, from: nat, t: nat, count: nat, pc: Pc)
  {
    match pc
    case NotifyShare(_, n) => n == count
    case NotifyBorrow(_, n) => n == count
    case NotifyTake(_, n) => n == count
    case NotifyDrop(list) => Took(tasks, schedule, from, t, count, list)
    case NotifyMutex(list) => Took(tasks, schedule, from, t, count, list)
    case NotifyStore(list, _) => Took(tasks, schedule, from, t, count, list)
    case NotifyPush(list, _) => Took(tasks, schedule, from, t, count, list)
    case NotifyLeaveMutex => Moved(tasks, schedule, from, t, count)
    case NotifyLeave => Moved(tasks, schedule, from, t, count)
    case Locked => Moved(tasks, schedule, from, t, count)
    case _ => false
  }

  lemma {:induction false} ProgressStays(tasks: nat, schedule: seq<(nat, Choice)>, from: nat, t: nat, count: nat,
        pc: Pc, turn: (nat, Choice))
    requires ProgressAt(tasks, schedule, from, t, count, pc)
    ensures ProgressAt(tasks, schedule + [turn], from, t, count, pc)
  {
    hide Took, Moved;
    match pc
    case NotifyShare(_, _) | NotifyBorrow(_, _) | NotifyTake(_, _) =>
    case NotifyDrop(list) => TookStays(tasks, schedule, from, t, count, list, turn);
    case NotifyMutex(list) => TookStays(tasks, schedule, from, t, count, list, turn);
    case NotifyStore(list, _) => TookStays(tasks, schedule, from, t, count, list, turn);
    case NotifyPush(list, _) => TookStays(tasks, schedule, from, t, count, list, turn);
    case _ => MovedStays(tasks, schedule, from, t, count, turn);
  }

  /** What a notifier's own turn does to where it is. */
  predicate Continues(pc: Pc, next: Pc)
  {
    || next == pc
    || match pc
       case NotifyShare(snap, n) => next == NotifyBorrow(snap, n)
       case NotifyBorrow(snap, n) => next == NotifyTake(snap, n) || next.Crashed?
       case NotifyTake(_, n) => next.NotifyDrop? || (next.NotifyTake? && next.count == n)
       case NotifyDrop(list) => next == NotifyMutex(list)
       case NotifyMutex(list) => next == if list == [] then NotifyLeaveMutex else NotifyStore(list, 0)
       case NotifyStore(list, _) =>
         (next.NotifyStore? && next.list == list) || (next.NotifyPush? && next.list == list) || next.Crashed?
       case NotifyPush(list, _) => next.NotifyLeaveMutex? || (next.NotifyPush? && next.list == list)
       case NotifyLeaveMutex => next == NotifyLeave
       case NotifyLeave => next == Locked
       case _ => false
  }

  lemma {:induction false} NotifyContinues(s: State, t: nat, c: Choice)
    requires t < |s.tasks| && Notifying(s.tasks[t].pc)
    ensures |Step(s, t, c).tasks| == |s.tasks| && Continues(s.tasks[t].pc, Step(s, t, c).tasks[t].pc)
  {
    hide Rehome, Enqueue, Pop;
    if s.tasks[t].pc.NotifyPush? {
      RehomeTouches(s.tasks[t := s.tasks[t].(pc := NotifyLeaveMutex)], s.tasks[t].pc.list, t);
    }
  }

  lemma {:induction false} TakeSucceeds(s: State, t: nat, c: Choice)
    requires t < |s.tasks| && s.tasks[t].pc.NotifyTake? && Step(s, t, c).tasks[t].pc.NotifyDrop?
    ensures !c.spurious && s.tasks[t].pc.snap == Condvar(s)
  {
    hide Enqueue, Pop;
  }

  lemma {:induction false} PushSucceeds(s: State, t: nat, c: Choice)
    requires t < |s.tasks| && s.tasks[t].pc.NotifyPush?
    requires |Step(s, t, c).tasks| == |s.tasks| && Step(s, t, c).tasks[t].pc.NotifyLeaveMutex?
    ensures !c.spurious && s.tasks[t].pc.snap == Mutex(s)
  {
    hide Rehome;
  }

  lemma {:induction false} TakeTurn(tasks: nat, schedule: seq<(nat, Choice)>, from: nat, t: nat, count: nat, c: Choice)
    requires from <= |schedule|
    requires var s := Run(Init(tasks), schedule);
             && t < |s.tasks| && t < |Step(s, t, c).tasks| && s.tasks[t].pc.NotifyTake? && s.tasks[t].pc.count == count
             && Step(s, t, c).tasks[t].pc.NotifyDrop?
    ensures Took(tasks, schedule + [(t, c)], from, t, count, Step(Run(Init(tasks), schedule), t, c).tasks[t].pc.list)
  {
    hide Run, Init, View, Step;
    var s := Run(Init(tasks), schedule);
    TakeSucceeds(s, t, c);
    NotifyTakesFirst(tasks, schedule, t, c);
    RunOne(tasks, schedule, t, c);
    var all := schedule + [(t, c)];
    assert all[..|schedule|] == schedule && all[..|schedule| + 1] == all;
    assert TakesAt(tasks, all, |schedule|, t, count, Step(s, t, c).tasks[t].pc.list);
  }

  lemma {:induction false} PushTurn(tasks: nat, schedule: seq<(nat, Choice)>, from: nat, t: nat, count: nat, c: Choice)
    requires from <= |schedule|
    requires var s := Run(Init(tasks), schedule);
             && t < |s.tasks| && |Step(s, t, c).tasks| == |s.tasks| && s.tasks[t].pc.NotifyPush?
             && Took(tasks, schedule, from, t, count, s.tasks[t].pc.list)
             && Step(s, t, c).tasks[t].pc.NotifyLeaveMutex?
    ensures Moved(tasks, schedule + [(t, c)], from, t, count)
  {
    hide Run, Init, View, Step;
    var s := Run(Init(tasks), schedule);
    var list := s.tasks[t].pc.list;
    PushSucceeds(s, t, c);
    NotifyAppends(tasks, schedule, t, c);
    RunOne(tasks, schedule, t, c);
    var all := schedule + [(t, c)];
    assert all[..|schedule|] == schedule && all[..|schedule| + 1] == all;
    assert AppendsAt(tasks, all, |schedule|, t, list);
    var i :| from <= i < |schedule| && TakesAt(tasks, schedule, i, t, count, list);
    assert all[..i] == schedule[..i] && all[..i + 1] == schedule[..i + 1];
    assert TakesAt(tasks, all, i, t, count, list);
  }

  lemma {:induction false} NotCrashed(tasks: nat, schedule: seq<(nat, Choice)>, u: nat, c: Choice, t: nat)
    requires var s := Run(Init(tasks), schedule); u < |s.tasks| && t < |Step(s, u, c).tasks|
    ensures !Step(Run(Init(tasks), schedule), u, c).tasks[t].pc.Crashed?
  {
    hide Run, Init, Step;
    RunOne(tasks, schedule, u, c);
    NeverCrashes(tasks, schedule + [(u, c)], t);
  }

  lemma {:induction false} ProgressTurn(tasks: nat, schedule: seq<(nat, Choice)>, from: nat, t: nat, count: nat,
        c: Choice)
    requires from <= |schedule| && Progress(tasks, schedule, from, t, count)
    requires !BetweenCalls(Run(Init(tasks), schedule).tasks[t].pc)
    ensures Progress(tasks, schedule + [(t, c)], from, t, count)
  {
    hide Run, Init, Step, Took, Moved;
    var s := Run(Init(tasks), schedule);
    var pc := s.tasks[t].pc;
    RunOne(tasks, schedule, t, c);
    NotifyContinues(s, t, c);
    NotCrashed(tasks, schedule, t, c, t);
    var next := Step(s, t, c).tasks[t].pc;
    ProgressStays(tasks, schedule, from, t, count, pc, (t, c));
    if pc.NotifyTake? && next.NotifyDrop? {
      TakeTurn(tasks, schedule, from, t, count, c);
    } else if pc.NotifyPush? && next.NotifyLeaveMutex? {
      PushTurn(tasks, schedule, from, t, count, c);
    } else if pc.NotifyMutex? && pc.list == [] {
      NothingToMove(tasks, schedule + [(t, c)], from, t, count);
    }
  }

  lemma {:induction false} NothingToMove(tasks: nat, schedule: seq<(nat, Choice)>, from: nat, t: nat, count: nat)
    requires Took(tasks, schedule, from, t, count, [])
    ensures Moved(tasks, schedule, from, t, count)
  {
  }

  /** A task that asks to notify begins with that count, or finds that nobody has waited. */
  lemma {:induction false} NotifyBegins(tasks: nat, schedule: seq<(nat, Choice)>, from: nat, t: nat, c: Choice)
    requires from <= |schedule| && c.op.StartNotify?
    requires var s := Run(Init(tasks), schedule); t < |s.tasks| && s.tasks[t].pc.Locked?
    ensures Progress(tasks, schedule + [(t, c)], from, t, c.op.count)
  {
    hide Run, Init, View;
    RunOne(tasks, schedule, t, c);
    var s := Run(Init(tasks), schedule);
    if s.used == 0 {
      UnusedIsEmpty(tasks, schedule);
      assert (schedule + [(t, c)])[..|schedule|] == schedule;
      assert NobodyAt(tasks, schedule + [(t, c)], |schedule|, t);
    }
  }

  /** Over whole runs: a task that has the mutex, asks for nothing but to notify count
    waiters, and has the mutex again at rest, has moved the first count waiters of the
    room, or all of them, in order, to the end of the line. */
  lemma {:induction false} NotifyMovesFirst(tasks: nat, schedule: seq<(nat, Choice)>, more: seq<(nat, Choice)>, t: nat,
        count: nat)
    requires var s := Run(Init(tasks), schedule); t < |s.tasks| && s.tasks[t].pc.Locked?
    requires Calls(tasks, schedule + more, t) == Calls(tasks, schedule, t) + [StartNotify(count)]
    requires var s' := Run(Init(tasks), schedule + more); t < |s'.tasks| && s'.tasks[t].pc.Locked?
    ensures Moved(tasks, schedule + more, |schedule|, t, count)
  {
    hide Run, Init, Moved;
    NotifyProgress(tasks, schedule, more, t, count);
  }

  lemma {:induction false} NotifyProgress(tasks: nat, schedule: seq<(nat, Choice)>, more: seq<(nat, Choice)>, t: nat,
        count: nat)
    requires var s := Run(Init(tasks), schedule); t < |s.tasks| && s.tasks[t].pc.Locked?
    requires Calls(tasks, schedule + more, t) <= Calls(tasks, schedule, t) + [StartNotify(count)]
    ensures var s' := Run(Init(tasks), schedule + more);
            if Calls(tasks, schedule + more, t) == Calls(tasks, schedule, t) then
              t < |s'.tasks| && s'.tasks[t].pc.Locked?
            else
              && Calls(tasks, schedule + more, t) == Calls(tasks, schedule, t) + [StartNotify(count)]
              && Progress(tasks, schedule + more, |schedule|, t, count)
    decreases |more|
  {
    hide Run, Init, Step, Calls, Progress;
    CallsGrow(tasks, schedule, more, t);
    if more == [] {
      assert schedule + more == schedule;
    } else {
      var last := |more| - 1;
      var before := schedule + more[..last];
      assert schedule + more == before + [more[last]];
      CallsGrow(tasks, before, [more[last]], t);
      CallsGrow(tasks, schedule, more[..last], t);
      NotifyProgress(tasks, schedule, more[..last], t, count);
      NotifyTurn(tasks, schedule, before, more[last].0, more[last].1, t, count);
    }
  }

  lemma {:induction false} NotifyTurn(tasks: nat, schedule: seq<(nat, Choice)>, before: seq<(nat, Choice)>, u: nat,
        c: Choice, t: nat, count: nat)
    requires |schedule| <= |before|
    requires Calls(tasks, schedule, t) <= Calls(tasks, before + [(u, c)], t)
          <= Calls(tasks, schedule, t) + [StartNotify(count)]
    requires var s := Run(Init(tasks), before);
             if Calls(tasks, before, t) == Calls(tasks, schedule, t) then t < |s.tasks| && s.tasks[t].pc.Locked?
             else && Calls(tasks, before, t) == Calls(tasks, schedule, t) + [StartNotify(count)]
                  && Progress(tasks, before, |schedule|, t, count)
    ensures var s' := Run(Init(tasks), before + [(u, c)]);
            if Calls(tasks, before + [(u, c)], t) == Calls(tasks, schedule, t) then
              t < |s'.tasks| && s'.tasks[t].pc.Locked?
            else
              && Calls(tasks, before + [(u, c)], t) == Calls(tasks, schedule, t) + [StartNotify(count)]
              && Progress(tasks, before + [(u, c)], |schedule|, t, count)
  {
    hide Run, Init, Step, Calls, ProgressAt;
    var s := Run(Init(tasks), before);
    RunOne(tasks, before, u, c);
    CallsOne(tasks, before, u, c, t);
    if u == t {
      if Calls(tasks, before, t) == Calls(tasks, schedule, t) {
        LastCall(Calls(tasks, schedule, t), c.op, StartNotify(count));
        NotifyBegins(tasks, before, |schedule|, t, c);
      } else {
        ProgressTurn(tasks, before, |schedule|, t, count, c);
      }
    } else {
      if u < |s.tasks| {
        StepOfOther(s, u, c, t);
      }
      if Calls(tasks, before, t) != Calls(tasks, schedule, t) {
        ProgressStays(tasks, before, |schedule|, t, count, s.tasks[t].pc, (u, c));
      }
    }
  }

  lemma {:induction false} LastCall(calls: seq<Op>, a: Op, b: Op)
    requires calls + [a] <= calls + [b]
    ensures a == b
  {
    assert (calls + [a])[|calls|] == (calls + [b])[|calls|];
  }

  // ----- a dropped wait keeps nothing -----

  /** The task gives back what it was handed when it dropped its wait; a wait on the
    condition variable that sleeps has no code for this. */
  predicate GivesBack(pc: Pc)
  {
    Cancelling(pc) || pc.Unimplemented? || ((Releasing(pc) || pc.UnlockLeave?) && !pc.cv)
  }

  lemma {:induction false} CancelGivesBack(s: State, t: nat, c: Choice)
    requires t < |s.tasks| && (Cancelling(s.tasks[t].pc) || s.tasks[t].pc.Unimplemented?)
    ensures |Step(s, t, c).tasks| == |s.tasks|
    ensures var pc := Step(s, t, c).tasks[t].pc; GivesBack(pc) || pc.Idle? || pc.Crashed?
  {
    hide Enqueue, Unlink;
  }

  lemma {:induction false} DecideGivesBack(s: State, t: nat, c: Choice)
    requires t < |s.tasks|
    requires var pc := s.tasks[t].pc; (pc.UnlockPop? || pc.UnlockDecide? || pc.UnlockFree?) && !pc.cv
    ensures |Step(s, t, c).tasks| == |s.tasks|
    ensures var pc := Step(s, t, c).tasks[t].pc; GivesBack(pc) || pc.Crashed?
  {
    hide Front, Enqueue, Pop;
  }

  lemma {:induction false} UnlockGivesBack(s: State, t: nat, c: Choice)
    requires t < |s.tasks|
    requires var pc := s.tasks[t].pc;
             && (pc.UnlockShare? || pc.UnlockBorrow? || pc.UnlockRelock? || pc.HandDrop? || pc.HandWake?
                 || pc.UnlockLeave?)
             && !pc.cv
    ensures |Step(s, t, c).tasks| == |s.tasks|
    ensures var pc := Step(s, t, c).tasks[t].pc; GivesBack(pc) || pc.Idle? || pc.Crashed?
  {
  }

  /** The task has come to rest at some moment of the continuation. */
  predicate Rests(tasks: nat, schedule: seq<(nat, Choice)>, more: seq<(nat, Choice)>, t: nat)
  {
    exists k :: 0 <= k <= |more| && IdleAt(tasks, schedule + more[..k], t)
  }

  predicate IdleAt(tasks: nat, schedule: seq<(nat, Choice)>, t: nat)
  {
    var s := Run(Init(tasks), schedule);
    t < |s.tasks| && s.tasks[t].pc.Idle?
  }

  /** Over any continuation of any run a task that has dropped its wait, woken or not, does
    not come to hold the mutex before it is idle again. */
  lemma {:induction false} DroppedGivesBack(tasks: nat, schedule: seq<(nat, Choice)>, more: seq<(nat, Choice)>, t: nat)
    requires var s := Run(Init(tasks), schedule); t < |s.tasks| && GivesBack(s.tasks[t].pc)
    ensures || Rests(tasks, schedule, more, t)
            || (var s' := Run(Init(tasks), schedule + more); t < |s'.tasks| && GivesBack(s'.tasks[t].pc))
    decreases |more|
  {
    hide Run, Init, GivesBack, IdleAt;
    if more == [] {
      assert schedule + more == schedule;
    } else {
      var last := |more| - 1;
      DroppedGivesBack(tasks, schedule, more[..last], t);
      if k :| 0 <= k <= last && IdleAt(tasks, schedule + more[..last][..k], t) {
        assert more[..last][..k] == more[..k];
      } else {
        var before := schedule + more[..last];
        assert schedule + more == before + [more[last]];
        GivesBackTurn(tasks, before, more[last].0, more[last].1, t);
        assert more[..|more|] == more;
        assert IdleAt(tasks, schedule + more, t) ==> IdleAt(tasks, schedule + more[..|more|], t);
      }
    }
  }

  lemma {:induction false} GivesBackTurn(tasks: nat, schedule: seq<(nat, Choice)>, u: nat, c: Choice, t: nat)
    requires var p := Run(Init(tasks), schedule); t < |p.tasks| && GivesBack(p.tasks[t].pc)
    ensures || IdleAt(tasks, schedule + [(u, c)], t)
            || (var s' := Run(Init(tasks), schedule + [(u, c)]); t < |s'.tasks| && GivesBack(s'.tasks[t].pc))
  {
    hide Run, Init, Step;
    var p := Run(Init(tasks), schedule);
    RunOne(tasks, schedule, u, c);
    if u < |p.tasks| {
      var pc := p.tasks[t].pc;
      if u != t {
        StepOfOther(p, u, c, t);
      } else if Cancelling(pc) || pc.Unimplemented? {
        CancelGivesBack(p, t, c);
        NotCrashed(tasks, schedule, t, c, t);
      } else if pc.UnlockPop? || pc.UnlockDecide? || pc.UnlockFree? {
        DecideGivesBack(p, t, c);
        NotCrashed(tasks, schedule, t, c, t);
      } else {
        UnlockGivesBack(p, t, c);
        NotCrashed(tasks, schedule, t, c, t);
      }
    }
  }

  // ----- attempts that nobody disturbs are answered -----

  const GO := Choice(Proceed, false)

  /** Two turns of a task with nobody else in between, the second only if it still loops. */
  function Undisturbed(s: State, t: nat, loops: Pc -> bool): State
    requires t < |s.tasks|
  {
    var s' := Step(s, t, GO);
    if t < |s'.tasks| && loops(s'.tasks[t].pc) then Step(s', t, GO) else s'
  }

  lemma {:induction false} HolderIsCarrier(s: State)
    requires Inv(s)
    ensures s.word == One(s.carrier.Some?) && (View(s).holder.None? <==> s.carrier.None?)
  {
    hide Law, Local, Owned;
  }

  /** A task that asks for the mutex gets it if it belongs to nobody, and otherwise waits at
    the end of the line. */
  lemma {:induction false} LockIsAnswered(tasks: nat, schedule: seq<(nat, Choice)>, t: nat)
    requires var s := Run(Init(tasks), schedule); t < |s.tasks| && s.tasks[t].pc.LockTry?
    ensures var s := Run(Init(tasks), schedule);
            var s' := Undisturbed(s, t, (pc: Pc) => pc.LockTry?);
            && t < |s'.tasks|
            && if View(s).holder.None? then s'.tasks[t].pc.Locked? && View(s').holder == Some(t)
               else s'.tasks[t].pc == Parked(false) && View(s').line == View(s).line + [Waiter(t, 0)]
  {
    hide Run, Init, Inv;
    RunKeeps(tasks, schedule);
    HolderIsCarrier(Run(Init(tasks), schedule));
  }

  /** A task that waits comes last in the waiting room, and goes on to release the mutex. */
  lemma {:induction false} WaitIsAnswered(tasks: nat, schedule: seq<(nat, Choice)>, t: nat)
    requires var s := Run(Init(tasks), schedule); t < |s.tasks| && s.tasks[t].pc.WaitTry?
    ensures var s := Run(Init(tasks), schedule);
            var s' := Undisturbed(s, t, (pc: Pc) => pc.WaitTry?);
            && t < |s'.tasks| && s'.tasks[t].pc == UnlockShare(true) && s'.tasks[t].slot.Waiting?
            && View(s').room == View(s).room + [Waiter(t, 0)]
  {
    hide Run, Init, Inv;
    RunKeeps(tasks, schedule);
    WaitAlone(Run(Init(tasks), schedule), t);
  }

  lemma {:induction false} WaitAlone(s: State, t: nat)
    requires Inv(s) && t < |s.tasks| && s.tasks[t].pc.WaitTry?
    ensures var s' := Undisturbed(s, t, (pc: Pc) => pc.WaitTry?);
            && t < |s'.tasks| && s'.tasks[t].pc == UnlockShare(true) && s'.tasks[t].slot.Waiting?
            && View(s').room == View(s).room + [Waiter(t, 0)]
  {
    hide Inv;
    TaskAt(s, t);
    TokenWord(s, t);
    UsedAtMostOnce(s);
    assert [] + (Front(s.c) + s.c.inbox) == Front(s.c) + s.c.inbox;
    assert [] + (Front(s.c) + (s.c.inbox + [Waiter(t, 0)])) == Front(s.c) + s.c.inbox + [Waiter(t, 0)];
  }

  lemma {:induction false} UsedAtMostOnce(s: State)
    requires Inv(s)
    ensures s.used <= 1
  {
    hide Law, Local, Owned;
  }

  /** Unlocking with what is in memory hands the mutex to the first in line, and frees it if
    nobody is. */
  lemma {:induction false} UnlockIsAnswered(tasks: nat, schedule: seq<(nat, Choice)>, t: nat)
    requires var s := Run(Init(tasks), schedule);
             && t < |s.tasks|
             && (s.tasks[t].pc.UnlockPop? || (s.tasks[t].pc.UnlockDecide? && s.tasks[t].pc.snap == Mutex(s)))
    ensures var s := Run(Init(tasks), schedule);
            var cv := s.tasks[t].pc.cv;
            var s' := Undisturbed(s, t, (pc: Pc) => pc.UnlockFree?);
            && t < |s'.tasks|
            && if s.tasks[t].pc.UnlockPop? && Front(s.m) == [] then s'.tasks[t].pc == UnlockDecide(cv, Mutex(s'))
               else if View(s).line != [] then s'.tasks[t].pc == HandDrop(cv, View(s).line[0])
               else s'.tasks[t].pc == UnlockLeave(cv) && View(s').holder.None?
  {
    hide Run, Init, Inv, View, Step, Front;
    RunKeeps(tasks, schedule);
    var s := Run(Init(tasks), schedule);
    if s.tasks[t].pc.UnlockPop? {
      PopAlone(s, t);
    } else {
      DecideAlone(s, t);
    }
  }

  lemma {:induction false} PopAlone(s: State, t: nat)
    requires Inv(s) && t < |s.tasks| && s.tasks[t].pc.UnlockPop?
    ensures var s' := Step(s, t, GO);
            && t < |s'.tasks| && Mutex(s') == Mutex(s) && (Front(s.m) != [] ==> View(s).line != [])
            && s'.tasks[t].pc == if Front(s.m) == [] then UnlockDecide(s.tasks[t].pc.cv, Mutex(s))
                                 else HandDrop(s.tasks[t].pc.cv, View(s).line[0])
  {
    hide Inv, Enqueue;
    TaskAt(s, t);
    LineQueued(s);
  }

  lemma {:induction false} DecideAlone(s: State, t: nat)
    requires Inv(s) && t < |s.tasks| && s.tasks[t].pc.UnlockDecide? && s.tasks[t].pc.snap == Mutex(s)
    ensures var cv := s.tasks[t].pc.cv;
            var s' := Undisturbed(s, t, (pc: Pc) => pc.UnlockFree?);
            && t < |s'.tasks|
            && if View(s).line != [] then s'.tasks[t].pc == HandDrop(cv, View(s).line[0])
               else s'.tasks[t].pc == UnlockLeave(cv) && View(s').holder.None?
  {
    hide Inv, Enqueue;
    TaskAt(s, t);
    LineQueued(s);
  }

  lemma {:induction false} LineQueued(s: State)
    requires Inv(s)
    ensures |s.m.queues| == 1 && Front(Enqueue(s.m)) == Front(s.m) + s.m.inbox
  {
    hide Local, Owned, Token;
    SingleQueue(s.m, Parts(OfMutex, s.tasks));
  }

  /** A failed attempt to unlock comes back with what is in memory. */
  lemma {:induction false} UnlockReloads(tasks: nat, schedule: seq<(nat, Choice)>, t: nat)
    requires var s := Run(Init(tasks), schedule);
             t < |s.tasks| && (s.tasks[t].pc.UnlockDecide? || s.tasks[t].pc.UnlockFree?)
             && s.tasks[t].pc.snap != Mutex(s)
    ensures var s := Run(Init(tasks), schedule);
            var s' := Undisturbed(s, t, (pc: Pc) => pc.UnlockFree?);
            && t < |s'.tasks|
            && (s'.tasks[t].pc.UnlockDecide? || s'.tasks[t].pc.UnlockRelock?)
            && s'.tasks[t].pc.snap == Mutex(s) == Mutex(s')
  {
    hide Run, Init, Inv, Enqueue, Pop, Front;
    RunKeeps(tasks, schedule);
    TaskAt(Run(Init(tasks), schedule), t);
  }

  /** A notifier takes the first waiters of the room, as many as it was asked to. */
  lemma {:induction false} NotifyIsAnswered(tasks: nat, schedule: seq<(nat, Choice)>, t: nat)
    requires var s := Run(Init(tasks), schedule); t < |s.tasks| && s.tasks[t].pc.NotifyTake?
    ensures var s := Run(Init(tasks), schedule);
            var s' := Undisturbed(s, t, (pc: Pc) => pc.NotifyTake?);
            var calls := Calls(tasks, schedule, t);
            && calls != [] && calls[|calls| - 1].StartNotify?
            && t < |s'.tasks|
            && s'.tasks[t].pc == NotifyDrop(View(s).room[..Min(calls[|calls| - 1].count, |View(s).room|)])
  {
    hide Run, Init, Inv, View, Calls, Enqueue, Pop;
    var s := Run(Init(tasks), schedule);
    NotifyAsks(tasks, schedule, t);
    if s.tasks[t].pc.snap == Condvar(s) {
      NotifyTakesFirst(tasks, schedule, t, GO);
    } else {
      RunOne(tasks, schedule, t, GO);
      GotoView(s, t, NotifyTake(Condvar(s), s.tasks[t].pc.count));
      NotifyTakesFirst(tasks, schedule + [(t, GO)], t, GO);
    }
  }

  /** And it appends them to the line. */
  lemma {:induction false} PushIsAnswered(tasks: nat, schedule: seq<(nat, Choice)>, t: nat)
    requires var s := Run(Init(tasks), schedule); t < |s.tasks| && s.tasks[t].pc.NotifyPush?
    ensures var s := Run(Init(tasks), schedule);
            var s' := Undisturbed(s, t, (pc: Pc) => pc.NotifyPush?);
            View(s').line == View(s).line + s.tasks[t].pc.list && View(s).room == s.tasks[t].pc.list + View(s').room
  {
    hide Run, Init, Inv, View, Rehome;
    var s := Run(Init(tasks), schedule);
    var list := s.tasks[t].pc.list;
    if s.tasks[t].pc.snap == Mutex(s) {
      NotifyAppends(tasks, schedule, t, GO);
      RehomeTouches(s.tasks[t := s.tasks[t].(pc := NotifyLeaveMutex)], list, t);
    } else {
      RunOne(tasks, schedule, t, GO);
      GotoView(s, t, NotifyPush(list, Mutex(s)));
      NotifyAppends(tasks, schedule + [(t, GO)], t, GO);
    }
  }
}
