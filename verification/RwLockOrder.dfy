/** What a caller of the reader-writer lock gets: no reader comes in while a writer waits,
  a dropped wait keeps nothing, and an attempt that nobody disturbs is answered.
 */
module RwLockOrder {
  import opened Counting
  import opened Futex
  import opened FutexLaws
  import opened Options
  import opened RwLock
  import opened RwLockProof

  // ----- the operations a task asks for -----

  /** Between operations a task is idle, reads or writes. */
  predicate BetweenCalls(pc: Pc)
  {
    pc.Idle? || pc.Reading? || pc.Writing?
  }

  /** What the task asked for on its turns between operations, in order. */
  function Calls(tasks: nat, schedule: seq<(nat, Choice)>, t: nat): seq<Op>
    decreases |schedule|
  {
    if schedule == [] then []
    else
      var last := |schedule| - 1;
      var s := Run(Init(tasks), schedule[..last]);
      Calls(tasks, schedule[..last], t)
      + if schedule[last].0 == t && t < |s.pcs| && BetweenCalls(s.pcs[t]) then [schedule[last].1.op] else []
  }

  lemma {:induction false} CallsOne(tasks: nat, schedule: seq<(nat, Choice)>, u: nat, c: Choice, t: nat)
    ensures var s := Run(Init(tasks), schedule);
            Calls(tasks, schedule + [(u, c)], t)
            == Calls(tasks, schedule, t) + if u == t && t < |s.pcs| && BetweenCalls(s.pcs[t]) then [c.op] else []
  {
    hide Run, Init, BetweenCalls;
    assert (schedule + [(u, c)])[..|schedule|] == schedule;
  }

  // ----- readers stay behind a waiting writer -----

  /** The task has been let in as a reader: it reads, may read as soon as it is polled, or
    gives the lock back. */
  predicate LetIn(pc: Pc)
  {
    match pc
    case ReadWoken | Reading | ReadRelease(_) | LastReader(_) | LastGuarded(_) | LastTake(_) => true
    case CancelWait(Reader, woken) => woken
    case CancelLocked(Reader, woken) => woken
    case CancelFlip(Reader, woken, _) => woken
    case CancelCheck(Reader, woken) => woken
    case _ => false
  }

  /** The readers a downgrade is about to let in. */
  function Taken(pc: Pc): seq<Waiter>
  {
    match pc
    case DownDrop(_, list) => list
    case DownCount(_, list) => list
    case DownWake(list) => list
    case _ => []
  }

  predicate Names(ws: seq<Waiter>, r: nat)
  {
    exists w :: w in ws && w.task == r
  }

  /** The task has not been let in and is not about to be. */
  predicate Outside(s: State, r: nat)
  {
    && r < |s.pcs| && !LetIn(s.pcs[r])
    && forall k :: 0 <= k < |s.pcs| ==> !Names(Taken(s.pcs[k]), r)
  }

  predicate WaitsToWrite(s: State, w: nat)
  {
    w < |s.pcs| && s.pcs[w].WriteParked?
  }

  lemma {:induction false} WriterCounts(s: State, w: nat, t: nat)
    requires Inv(s) && WaitsToWrite(s, w) && t < |s.pcs|
    ensures s.word.writers > 0
    ensures s.pcs[t].WriteDecide? ==> s.word.writers > 1
  {
    SumAt(s.pcs, WriteUnits, w);
    if s.pcs[t].WriteDecide? {
      SumTwo(s.pcs, WriteUnits, w, t);
    }
  }

  lemma {:induction false} OwnEntry(s: State, t: nat, c: Choice)
    requires t < |s.pcs| && s.word.writers > 0 && !LetIn(s.pcs[t])
    requires var pc := s.pcs[t];
             || pc.Idle? || pc.ReadTry? || pc.WriteTry? || pc.ReadParked? || pc.WriteParked?
             || pc.WriteWoken? || pc.Writing? || pc.Crashed?
    ensures t < |Step(s, t, c).pcs| && !LetIn(Step(s, t, c).pcs[t]) && Taken(Step(s, t, c).pcs[t]) == []
  {
  }

  lemma {:induction false} OwnCancel(s: State, t: nat, c: Choice)
    requires t < |s.pcs| && !LetIn(s.pcs[t])
    requires s.pcs[t].CancelWait? || s.pcs[t].CancelLocked? || s.pcs[t].CancelFlip? || s.pcs[t].CancelCheck?
    ensures t < |Step(s, t, c).pcs| && !LetIn(Step(s, t, c).pcs[t]) && Taken(Step(s, t, c).pcs[t]) == []
  {
  }

  lemma {:induction false} OwnDecide(s: State, t: nat, c: Choice)
    requires t < |s.pcs| && s.pcs[t].WriteDecide? && s.word.writers > 1
    ensures t < |Step(s, t, c).pcs| && !LetIn(Step(s, t, c).pcs[t]) && Taken(Step(s, t, c).pcs[t]) == []
  {
    hide Enqueue, Queue;
  }

  lemma {:induction false} OwnUnlock(s: State, t: nat, c: Choice)
    requires t < |s.pcs|
    requires var pc := s.pcs[t];
             || pc.WriteRelease? || pc.WriteGuarded? || pc.WriteBorrowed? || pc.WriteFast?
             || pc.WriteRelock? || pc.HandDrop? || pc.HandWake? || pc.Leave?
    ensures t < |Step(s, t, c).pcs| && !LetIn(Step(s, t, c).pcs[t]) && Taken(Step(s, t, c).pcs[t]) == []
  {
  }

  lemma {:induction false} OwnDown(s: State, t: nat, c: Choice)
    requires t < |s.pcs| && (s.pcs[t].DownDrop? || s.pcs[t].DownCount? || s.pcs[t].DownWake?)
    ensures t < |Step(s, t, c).pcs| && !LetIn(Step(s, t, c).pcs[t])
    ensures forall v :: v in Taken(Step(s, t, c).pcs[t]) ==> v in Taken(s.pcs[t])
  {
  }

  lemma {:induction false} OwnRead(s: State, t: nat, c: Choice)
    requires t < |s.pcs| && LetIn(s.pcs[t])
    ensures t < |Step(s, t, c).pcs| && Taken(Step(s, t, c).pcs[t]) == []
  {
    hide Enqueue;
  }

  /** On its own turn a task that is outside is not let in, and nobody takes more readers. */
  lemma {:induction false} OwnTurn(s: State, t: nat, c: Choice, w: nat)
    requires Inv(s) && t < |s.pcs| && WaitsToWrite(s, w)
    ensures t < |Step(s, t, c).pcs|
    ensures LetIn(Step(s, t, c).pcs[t]) ==> LetIn(s.pcs[t])
    ensures forall v :: v in Taken(Step(s, t, c).pcs[t]) ==> v in Taken(s.pcs[t])
  {
    hide Inv, Step, LetIn, Taken;
    WriterCounts(s, w, t);
    var pc := s.pcs[t];
    if LetIn(pc) {
      OwnRead(s, t, c);
    } else if pc.CancelWait? || pc.CancelLocked? || pc.CancelFlip? || pc.CancelCheck? {
      OwnCancel(s, t, c);
    } else if pc.DownDrop? || pc.DownCount? || pc.DownWake? {
      OwnDown(s, t, c);
    } else if pc.Idle? || pc.ReadTry? || pc.WriteTry? || pc.ReadParked? || pc.WriteParked? || pc.WriteWoken?
              || pc.Writing? || pc.Crashed? {
      OwnEntry(s, t, c);
    } else if pc.WriteDecide? {
      OwnDecide(s, t, c);
    } else {
      Unlocking(pc);
      OwnUnlock(s, t, c);
    }
  }

  lemma {:induction false} Unlocking(pc: Pc)
    requires !LetIn(pc) && !pc.DownDrop? && !pc.DownCount? && !pc.DownWake? && !pc.CancelWait? && !pc.CancelLocked?
    requires !pc.CancelFlip? && !pc.CancelCheck? && !pc.Idle? && !pc.ReadTry? && !pc.WriteTry? && !pc.ReadParked?
    requires !pc.WriteParked? && !pc.WriteWoken? && !pc.Writing? && !pc.WriteDecide? && !pc.Crashed?
    ensures || pc.WriteRelease? || pc.WriteGuarded? || pc.WriteBorrowed? || pc.WriteFast?
            || pc.WriteRelock? || pc.HandDrop? || pc.HandWake? || pc.Leave?
  {
  }

  /** A writer in hand is asleep as a writer. */
  lemma {:induction false} HandIsWriter(s: State, t: nat, v: Waiter)
    requires Inv(s) && t < |s.pcs| && s.pcs[t] == HandWake(v) && v.task < |s.pcs|
    ensures Woken(s.pcs[v.task]) == Some(WriteWoken)
  {
    PcHolds(s, t);
    PcHolds(s, v.task);
    MapUpdate(s.pcs, PartOf, t, s.pcs[t]);
    HandWaits(s.futex, Parts(s.pcs), t, v);
    hide Inv, Law, Lawful, Counts;
  }

  lemma {:induction false} HandTurn(s: State, t: nat, c: Choice, r: nat)
    requires Inv(s) && t < |s.pcs| && r < |s.pcs| && r != t && s.pcs[t].HandWake?
    requires !LetIn(s.pcs[r])
    ensures r < |Step(s, t, c).pcs| && !LetIn(Step(s, t, c).pcs[r])
  {
    hide Inv;
    if s.pcs[t].w.task == r {
      HandIsWriter(s, t, s.pcs[t].w);
    }
  }

  /** Another task's turn lets in only whom it has taken. */
  lemma {:induction false} OthersTurn(s: State, t: nat, c: Choice, r: nat)
    requires Inv(s) && t < |s.pcs| && r < |s.pcs| && r != t && !LetIn(s.pcs[r]) && !Names(Taken(s.pcs[t]), r)
    ensures r < |Step(s, t, c).pcs| && !LetIn(Step(s, t, c).pcs[r])
  {
    hide Inv, LetIn;
    match s.pcs[t]
    case HandWake(v) =>
      hide Step;
      HandTurn(s, t, c, r);
    case DownWake(list) =>
      if list != [] {
        assert list[0] in Taken(s.pcs[t]);
      }
    case _ =>
      hide Step;
      MovesOne(s, t, c);
  }

  lemma {:induction false} MovesOne(s: State, u: nat, c: Choice)
    requires u < |s.pcs| && !s.pcs[u].HandWake? && !s.pcs[u].DownWake?
    ensures Moves(s, Step(s, u, c), u)
  {
    hide Step;
    match s.pcs[u]
    case CancelWait(_, _) | CancelLocked(_, _) | CancelFlip(_, _, _) | CancelCheck(_, _) => CancelMoves(s, u, c);
    case ReadRelease(_) | LastReader(_) | LastGuarded(_) | LastTake(_) => ReadUnlockMoves(s, u, c);
    case WriteRelease | WriteGuarded | WriteBorrowed | WriteDecide(_, _) | WriteFast(_) | WriteRelock(_) =>
      WriteUnlockMoves(s, u, c);
    case HandDrop(_) | DownDrop(_, _) | DownCount(_, _) | Leave => HandMoves(s, u, c);
    case _ => EntryMoves(s, u, c);
  }

  lemma {:induction false} WokenTakes(pc: Pc)
    requires Woken(pc).Some?
    ensures Taken(Woken(pc).value) == []
  {
  }

  /** On anybody's turn, as long as a writer waits, nobody is let in but those that were
    taken before it began to wait. */
  lemma {:induction false} StaysOutside(s: State, t: nat, c: Choice, w: nat, r: nat)
    requires Inv(s) && t < |s.pcs| && WaitsToWrite(s, w) && Outside(s, r)
    ensures Outside(Step(s, t, c), r)
  {
    hide Inv, Step, LetIn, Taken, Woken;
    var s' := Step(s, t, c);
    OwnTurn(s, t, c, w);
    StepKeepsTasks(s, t, c);
    if r != t {
      OthersTurn(s, t, c, r);
    }
    forall k | 0 <= k < |s'.pcs|
      ensures !Names(Taken(s'.pcs[k]), r)
    {
      if k != t {
        StepOfOther(s, t, c, k);
        if s'.pcs[k] != s.pcs[k] {
          WokenTakes(s.pcs[k]);
        }
      }
    }
  }

  /** A waiting writer goes on waiting until it is woken and owns the lock. */
  lemma {:induction false} WaitsOn(s: State, t: nat, c: Choice, w: nat)
    requires t < |s.pcs| && WaitsToWrite(s, w)
    ensures var s' := Step(s, t, c); w < |s'.pcs| && (s'.pcs[w].WriteParked? || s'.pcs[w].WriteWoken?)
  {
    if t != w {
      hide Step;
      StepOfOther(s, t, c, w);
    }
  }

  /** The writer is granted the lock at some moment of the continuation. */
  predicate Granted(tasks: nat, schedule: seq<(nat, Choice)>, more: seq<(nat, Choice)>, w: nat)
  {
    exists k :: 0 <= k <= |more| && GrantedAt(tasks, schedule + more[..k], w)
  }

  predicate GrantedAt(tasks: nat, schedule: seq<(nat, Choice)>, w: nat)
  {
    var s := Run(Init(tasks), schedule);
    w < |s.pcs| && s.pcs[w].WriteWoken?
  }

  /** Writers come first: over any continuation of any run a task that was outside while a
    writer waited, be it parked behind or in front of that writer, about to ask, or yet to
    come, is not let in before that writer was granted the lock. */
  lemma {:induction false} WritersFirst(tasks: nat, schedule: seq<(nat, Choice)>, more: seq<(nat, Choice)>, w: nat,
        r: nat)
    requires var s := Run(Init(tasks), schedule); WaitsToWrite(s, w) && Outside(s, r)
    ensures || Granted(tasks, schedule, more, w)
            || (var s' := Run(Init(tasks), schedule + more); WaitsToWrite(s', w) && Outside(s', r))
    decreases |more|
  {
    hide Step, Init, Inv, WaitsToWrite, Outside, GrantedAt;
    if more == [] {
      assert schedule + more == schedule;
    } else {
      var last := |more| - 1;
      WritersFirst(tasks, schedule, more[..last], w, r);
      if k :| 0 <= k <= last && GrantedAt(tasks, schedule + more[..last][..k], w) {
        assert more[..last][..k] == more[..k];
      } else {
        var before := schedule + more[..last];
        assert (schedule + more)[..|schedule + more| - 1] == before;
        RunKeeps(tasks, before);
        LastTurn(tasks, schedule, more, w, r);
      }
    }
  }

  lemma {:induction false} LastTurn(tasks: nat, schedule: seq<(nat, Choice)>, more: seq<(nat, Choice)>, w: nat,
        r: nat)
    requires more != []
    requires var p := Run(Init(tasks), schedule + more[..|more| - 1]); WaitsToWrite(p, w) && Outside(p, r)
    ensures || Granted(tasks, schedule, more, w)
            || (var s' := Run(Init(tasks), schedule + more); WaitsToWrite(s', w) && Outside(s', r))
  {
    hide Step, Init, Inv, Outside;
    var before := schedule + more[..|more| - 1];
    assert (schedule + more)[..|schedule + more| - 1] == before;
    RunKeeps(tasks, before);
    var p := Run(Init(tasks), before);
    var (t, c) := more[|more| - 1];
    if t < |p.pcs| {
      StaysOutside(p, t, c, w, r);
      WaitsOn(p, t, c, w);
      if !WaitsToWrite(Step(p, t, c), w) {
        assert more[..|more|] == more;
        assert GrantedAt(tasks, schedule + more[..|more|], w);
      }
    }
  }

  /** A task that does not wait is in nobody's hand. */
  lemma {:induction false} IdleIsOutside(s: State, r: nat)
    requires Inv(s) && r < |s.pcs| && s.pcs[r].Idle?
    ensures Outside(s, r)
  {
    hide Counts, Local, Lawful;
    forall k | 0 <= k < |s.pcs|
      ensures !Names(Taken(s.pcs[k]), r)
    {
      if v :| v in Taken(s.pcs[k]) && v.task == r {
        TakenIsHand(s.pcs[k]);
        MapUpdate(s.pcs, PartOf, k, s.pcs[k]);
        MapUpdate(s.pcs, PartOf, r, s.pcs[r]);
        HandWaits(s.futex, Parts(s.pcs), k, v);
      }
    }
  }

  lemma {:induction false} TakenIsHand(pc: Pc)
    ensures Taken(pc) == [] || Taken(pc) == PartOf(pc).hand
  {
  }

  // ----- a dropped wait keeps nothing -----

  /** The task gives back what it was granted when it dropped its wait. */
  predicate GivesBack(pc: Pc)
  {
    || pc.CancelWait? || pc.CancelLocked? || pc.CancelFlip? || pc.CancelCheck?
    || pc.ReadRelease? || pc.LastReader? || pc.LastGuarded? || pc.LastTake?
    || pc.WriteRelease? || pc.WriteGuarded? || pc.WriteBorrowed? || pc.WriteDecide? || pc.WriteFast?
    || pc.WriteRelock? || pc.HandDrop? || pc.HandWake? || pc.DownDrop? || pc.DownCount? || pc.DownWake? || pc.Leave?
  }

  lemma {:induction false} GivesBackOn(s: State, t: nat, c: Choice)
    requires t < |s.pcs| && GivesBack(s.pcs[t])
    ensures t < |Step(s, t, c).pcs|
    ensures var pc := Step(s, t, c).pcs[t]; GivesBack(pc) || pc.Idle? || pc.Crashed?
  {
    hide Enqueue;
  }

  lemma {:induction false} WokenGivesBack(pc: Pc)
    requires GivesBack(pc) && Woken(pc).Some?
    ensures GivesBack(Woken(pc).value)
  {
  }

  /** The task has come to rest at some moment of the continuation. */
  predicate Rests(tasks: nat, schedule: seq<(nat, Choice)>, more: seq<(nat, Choice)>, t: nat)
  {
    exists k :: 0 <= k <= |more| && IdleAt(tasks, schedule + more[..k], t)
  }

  predicate IdleAt(tasks: nat, schedule: seq<(nat, Choice)>, t: nat)
  {
    var s := Run(Init(tasks), schedule);
    t < |s.pcs| && s.pcs[t].Idle?
  }

  /** Over any continuation of any run a task that has dropped its wait, as reader or as
    writer, woken or not, neither reads nor writes before it is idle again; and idle it
    holds no unit of the word. */
  lemma {:induction false} DroppedGivesBack(tasks: nat, schedule: seq<(nat, Choice)>, more: seq<(nat, Choice)>, t: nat)
    requires var s := Run(Init(tasks), schedule); t < |s.pcs| && GivesBack(s.pcs[t])
    ensures || Rests(tasks, schedule, more, t)
            || (var s' := Run(Init(tasks), schedule + more); t < |s'.pcs| && GivesBack(s'.pcs[t]))
    decreases |more|
  {
    hide Step, Init, GivesBack, IdleAt, Woken;
    if more == [] {
      assert schedule + more == schedule;
    } else {
      var last := |more| - 1;
      DroppedGivesBack(tasks, schedule, more[..last], t);
      if k :| 0 <= k <= last && IdleAt(tasks, schedule + more[..last][..k], t) {
        assert more[..last][..k] == more[..k];
      } else {
        var before := schedule + more[..last];
        assert (schedule + more)[..|schedule + more| - 1] == before;
        GivesBackTurn(tasks, schedule, more, t);
      }
    }
  }

  lemma {:induction false} GivesBackTurn(tasks: nat, schedule: seq<(nat, Choice)>, more: seq<(nat, Choice)>, t: nat)
    requires more != []
    requires var p := Run(Init(tasks), schedule + more[..|more| - 1]); t < |p.pcs| && GivesBack(p.pcs[t])
    ensures || Rests(tasks, schedule, more, t)
            || (var s' := Run(Init(tasks), schedule + more); t < |s'.pcs| && GivesBack(s'.pcs[t]))
  {
    hide Step, Init, GivesBack, Woken;
    var before := schedule + more[..|more| - 1];
    assert (schedule + more)[..|schedule + more| - 1] == before;
    var p := Run(Init(tasks), before);
    var (u, c) := more[|more| - 1];
    if u < |p.pcs| {
      StepKeepsTasks(p, u, c);
      NeverCrashes(tasks, schedule + more, t);
      if u == t {
        GivesBackOn(p, t, c);
        assert more[..|more|] == more;
        assert Step(p, t, c).pcs[t].Idle? ==> IdleAt(tasks, schedule + more[..|more|], t);
      } else {
        StepOfOther(p, u, c, t);
        if Woken(p.pcs[t]).Some? {
          WokenGivesBack(p.pcs[t]);
        }
      }
    }
  }

  // ----- attempts that nobody disturbs are answered -----

  const GO := Choice(Proceed, false)

  /** Two turns of a task with nobody else in between, the second only if it still loops. */
  function Undisturbed(s: State, t: nat, loops: Pc -> bool): State
    requires t < |s.pcs|
  {
    var s' := Step(s, t, GO);
    if t < |s'.pcs| && loops(s'.pcs[t]) then Step(s', t, GO) else s'
  }

  /** No task owns the lock as a writer or waits to. */
  predicate NoWriter(s: State)
  {
    forall i :: 0 <= i < |s.pcs| ==> WriteUnits(s.pcs[i]) == 0
  }

  /** No task has been let in as a reader or is about to be. */
  predicate NoReader(s: State)
  {
    forall i :: 0 <= i < |s.pcs| ==> ReadUnits(s.pcs[i]) == 0
  }

  lemma {:induction false} NobodyCounted(s: State)
    requires Inv(s)
    ensures NoWriter(s) <==> s.word.writers == 0
    ensures NoReader(s) <==> s.word.readers == 0
  {
    hide Law, Local, ReadUnits, WriteUnits;
    if s.word.writers == 0 {
      forall i | 0 <= i < |s.pcs|
        ensures WriteUnits(s.pcs[i]) == 0
      {
        SumAt(s.pcs, WriteUnits, i);
      }
    } else if NoWriter(s) {
      SumZero(s.pcs, WriteUnits);
    }
    if s.word.readers == 0 {
      forall i | 0 <= i < |s.pcs|
        ensures ReadUnits(s.pcs[i]) == 0
      {
        SumAt(s.pcs, ReadUnits, i);
      }
    } else if NoReader(s) {
      SumZero(s.pcs, ReadUnits);
    }
  }

  /** A task that asks to read is let in exactly if no writer owns the lock or waits for it;
    otherwise it is parked. */
  lemma {:induction false} ReadIsAnswered(tasks: nat, schedule: seq<(nat, Choice)>, t: nat)
    requires var s := Run(Init(tasks), schedule); t < |s.pcs| && s.pcs[t].ReadTry?
    ensures var s := Run(Init(tasks), schedule);
            var s' := Undisturbed(s, t, (pc: Pc) => pc.ReadTry?);
            && t < |s'.pcs| && s'.pcs[t] == (if NoWriter(s) then Reading else ReadParked)
            && s'.futex.inbox == s.futex.inbox + if NoWriter(s) then [] else [Waiter(t, READ_QUEUE)]
  {
    hide Run, Init, Inv, NoWriter, NoReader;
    RunKeeps(tasks, schedule);
    NobodyCounted(Run(Init(tasks), schedule));
  }

  /** A task that asks to write comes to own the lock exactly if nobody reads, owns the lock
    or waits to; otherwise it is parked behind all writers. */
  lemma {:induction false} WriteIsAnswered(tasks: nat, schedule: seq<(nat, Choice)>, t: nat)
    requires var s := Run(Init(tasks), schedule); t < |s.pcs| && s.pcs[t].WriteTry?
    ensures var s := Run(Init(tasks), schedule);
            var s' := Undisturbed(s, t, (pc: Pc) => pc.WriteTry?);
            && t < |s'.pcs|
            && if NoWriter(s) && NoReader(s) then s'.pcs[t] == Writing
               else s'.pcs[t] == WriteParked && s'.arrived == s.arrived + [Waiter(t, WRITE_QUEUE)]
  {
    hide Run, Init, Inv, NoWriter, NoReader;
    RunKeeps(tasks, schedule);
    NobodyCounted(Run(Init(tasks), schedule));
  }

  /** A reader gives its unit back and is done, unless it is the last one and a writer waits,
    which it then goes on to wake. */
  lemma {:induction false} ReadUnlockIsAnswered(tasks: nat, schedule: seq<(nat, Choice)>, t: nat)
    requires var s := Run(Init(tasks), schedule); t < |s.pcs| && s.pcs[t].ReadRelease?
    ensures var s := Run(Init(tasks), schedule);
            var s' := Undisturbed(s, t, (pc: Pc) => pc.ReadRelease? && !IsLast(pc));
            && t < |s'.pcs| && s.word.readers >= 1
            && if s.word.readers == 1 && !NoWriter(s) then IsLast(s'.pcs[t]) && s'.word == s.word
               else s'.pcs[t] == Idle && s'.word == Word(s.word.readers - 1, s.word.writers)
  {
    hide Run, Init, NoWriter, NoReader;
    RunKeeps(tasks, schedule);
    NobodyCounted(Run(Init(tasks), schedule));
    ReadUnlockAlone(Run(Init(tasks), schedule), t);
  }

  lemma {:induction false} ReadUnlockAlone(s: State, t: nat)
    requires Inv(s) && t < |s.pcs| && s.pcs[t].ReadRelease?
    ensures var s' := Undisturbed(s, t, (pc: Pc) => pc.ReadRelease? && !IsLast(pc));
            && t < |s'.pcs| && s.word.readers >= 1
            && if s.word.readers == 1 && s.word.writers > 0 then IsLast(s'.pcs[t]) && s'.word == s.word
               else s'.pcs[t] == Idle && s'.word == Word(s.word.readers - 1, s.word.writers)
  {
    hide Law;
    PcHolds(s, t);
    SumAt(s.pcs, ReadUnits, t);
  }

  /** The next writer in the order in which they began to wait. */
  function NextWriter(s: State): Option<Waiter>
  {
    if |s.granted| < |s.arrived| then Some(s.arrived[|s.granted|]) else None
  }

  /** The last reader takes the writer in hand that has waited longest. */
  lemma {:induction false} LastReaderIsAnswered(tasks: nat, schedule: seq<(nat, Choice)>, t: nat)
    requires var s := Run(Init(tasks), schedule); t < |s.pcs| && s.pcs[t].LastTake?
    ensures var s := Run(Init(tasks), schedule);
            var s' := Undisturbed(s, t, (pc: Pc) => pc.LastTake?);
            && NextWriter(s).Some?
            && t < |s'.pcs| && s'.pcs[t] == HandDrop(NextWriter(s).value) && s'.word == Word(0, s.word.writers)
  {
    hide Run, Init;
    RunKeeps(tasks, schedule);
    LastReaderAlone(Run(Init(tasks), schedule), t);
  }

  lemma {:induction false} LastReaderAlone(s: State, t: nat)
    requires Inv(s) && t < |s.pcs| && s.pcs[t].LastTake?
    ensures var s' := Undisturbed(s, t, (pc: Pc) => pc.LastTake?);
            && NextWriter(s).Some?
            && t < |s'.pcs| && s'.pcs[t] == HandDrop(NextWriter(s).value) && s'.word == Word(0, s.word.writers)
  {
    hide Counts, Law, Local, Enqueue;
    PcAt(s, t);
    LastTakeFindsWriter(s, t);
    WritersQueue(s);
  }

  lemma {:induction false} WritersQueue(s: State)
    requires Law(s) && InOrder(s)
    ensures |Enqueue(s.futex).queues| == 2
    ensures s.arrived == s.granted + Queue(Enqueue(s.futex), WRITE_QUEUE)
    ensures NextWriter(s) == if Queue(Enqueue(s.futex), WRITE_QUEUE) == [] then None
                             else Some(Enqueue(s.futex).queues[WRITE_QUEUE][0])
  {
    hide Lawful;
    var q := Queue(Enqueue(s.futex), WRITE_QUEUE);
    assert q == Queue(s.futex, WRITE_QUEUE) + OnQueue(s.futex.inbox, WRITE_QUEUE);
    assert s.arrived == s.granted + q;
  }

  /** An owner that unlocks with what is in memory takes the writer in hand that has waited
    longest; if none waits, it becomes a reader and takes all readers that wait; and if
    nobody waits it frees the lock. */
  lemma {:induction false} WriteUnlockIsAnswered(tasks: nat, schedule: seq<(nat, Choice)>, t: nat)
    requires var s := Run(Init(tasks), schedule);
             t < |s.pcs| && s.pcs[t].WriteDecide? && s.pcs[t].snap == Current(s)
    ensures var s := Run(Init(tasks), schedule);
            var s' := Undisturbed(s, t, (pc: Pc) => pc.WriteFast?);
            var readers := Queue(s.futex, READ_QUEUE) + s.futex.inbox;
            && t < |s'.pcs|
            && if NextWriter(s).Some? then s'.pcs[t] == HandDrop(NextWriter(s).value)
               else if readers != [] then s'.pcs[t].DownDrop? && s'.pcs[t].list == readers && s'.word == Word(1, 0)
               else s'.pcs[t] == Leave && s'.word == Word(0, 0)
  {
    hide Run, Init;
    RunKeeps(tasks, schedule);
    WriteUnlockAlone(Run(Init(tasks), schedule), t);
  }

  lemma {:induction false} WriteUnlockAlone(s: State, t: nat)
    requires Inv(s) && t < |s.pcs| && s.pcs[t].WriteDecide? && s.pcs[t].snap == Current(s)
    ensures var s' := Undisturbed(s, t, (pc: Pc) => pc.WriteFast?);
            var readers := Queue(s.futex, READ_QUEUE) + s.futex.inbox;
            && t < |s'.pcs|
            && if NextWriter(s).Some? then s'.pcs[t] == HandDrop(NextWriter(s).value)
               else if readers != [] then s'.pcs[t].DownDrop? && s'.pcs[t].list == readers && s'.word == Word(1, 0)
               else s'.pcs[t] == Leave && s'.word == Word(0, 0)
  {
    hide Counts, Law, Local, Enqueue;
    PcAt(s, t);
    OwnerSees(s.word, s.pcs, t);
    WritersQueue(s);
    if s.word.writers > 1 {
      HandOffFindsWriter(s, t);
    } else {
      NoWriterWaits(s, t);
    }
  }

  lemma {:induction false} NoWriterWaits(s: State, t: nat)
    requires Inv(s) && t < |s.pcs| && s.pcs[t].WriteDecide? && s.word.writers == 1
    ensures Queue(Enqueue(s.futex), WRITE_QUEUE) == []
    ensures |Enqueue(s.futex).queues| == 2
    ensures Enqueue(s.futex).queues[READ_QUEUE] == Queue(s.futex, READ_QUEUE) + s.futex.inbox
  {
    hide Counts, Lawful, Local;
    DowngradeLists(s, t);
  }

  /** A failed attempt to unlock comes back with what is in memory. */
  lemma {:induction false} WriteUnlockReloads(tasks: nat, schedule: seq<(nat, Choice)>, t: nat)
    requires var s := Run(Init(tasks), schedule);
             t < |s.pcs| && (s.pcs[t].WriteDecide? || s.pcs[t].WriteFast?) && s.pcs[t].snap != Current(s)
    ensures var s := Run(Init(tasks), schedule);
            var s' := Undisturbed(s, t, (pc: Pc) => pc.WriteFast? || pc.WriteRelock?);
            && t < |s'.pcs|
            && (s'.pcs[t].WriteDecide? || s'.pcs[t].WriteRelock?) && s'.pcs[t].snap == Current(s) == Current(s')
  {
    hide Run, Init;
    RunKeeps(tasks, schedule);
    ReloadAlone(Run(Init(tasks), schedule), t);
  }

  lemma {:induction false} ReloadAlone(s: State, t: nat)
    requires Inv(s) && t < |s.pcs| && (s.pcs[t].WriteDecide? || s.pcs[t].WriteFast?) && s.pcs[t].snap != Current(s)
    ensures var s' := Undisturbed(s, t, (pc: Pc) => pc.WriteFast? || pc.WriteRelock?);
            && t < |s'.pcs|
            && (s'.pcs[t].WriteDecide? || s'.pcs[t].WriteRelock?) && s'.pcs[t].snap == Current(s) == Current(s')
  {
    hide Counts, Lawful, Local, Enqueue;
    PcAt(s, t);
    if s.pcs[t].WriteFast? {
      NobodyBorrowsFrom(s, t);
    }
  }

  lemma {:induction false} NobodyBorrowsFrom(s: State, t: nat)
    requires Inv(s) && t < |s.pcs| && s.pcs[t].WriteFast?
    ensures !s.futex.borrowed
  {
    NobodyBorrows(s.word, s.pcs, t);
    BorrowFree(s.futex, Parts(s.pcs));
  }
}
