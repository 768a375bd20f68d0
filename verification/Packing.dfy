/** How the words of the protocols are packed into one machine word, and why nothing is
  lost by it in any run.

  The lock's counters and the channel's positions are packed into two half words, the
  barging mutex into two flag bits and the rest. Values that do not fit are truncated.
  half stands for the number of values of a half word, size for that of a word.
 */
module Packing {
  import opened Counting
  import opened Futex
  import opened FutexLaws
  import opened Places
  import opened Sequences
  import RwLock
  import RwLockProof
  import Mpsc
  import MpscProof
  import MpscOrder
  import FastMutex
  import FastMutexProof

  datatype Pair = Pair(first: nat, second: nat)

  function Encode(half: nat, val: Pair): nat
    requires half > 0
  {
    val.first % half + val.second % half * half
  }

  function Decode(half: nat, raw: nat): Pair
    requires half > 0
  {
    Pair(raw % half, raw / half % half)
  }

  predicate Fits(half: nat, val: Pair)
  {
    val.first < half && val.second < half
  }

  lemma {:induction false} Split(half: nat, a: nat, b: nat)
    requires a < half
    ensures (a + b * half) % half == a && (a + b * half) / half == b
  {
    PlaceOf(a, b, half);
    assert (a + b * half) / half * half == b * half;
  }

  /** Two half words survive packing exactly if both of them fit. */
  lemma {:induction false} PairRoundTrip(half: nat, val: Pair)
    requires half > 0
    ensures Decode(half, Encode(half, val)) == val <==> Fits(half, val)
  {
    Split(half, val.first % half, val.second % half);
    if Fits(half, val) {
      InRange(val.first, half);
      InRange(val.second, half);
    }
  }

  /** Every word is the packing of what it unpacks to. */
  lemma {:induction false} PairOnto(half: nat, raw: nat)
    requires half > 0 && raw < half * half
    ensures Fits(half, Decode(half, raw)) && Encode(half, Decode(half, raw)) == raw
  {
    var q := raw / half;
    assert raw == q * half + raw % half;
    if q >= half {
      Grows(q, half);
    }
    InRange(q, half);
    InRange(raw % half, half);
  }

  lemma {:induction false} Grows(q: nat, half: nat)
    requires q >= half
    ensures q * half >= half * half
  {
  }

  // ----- the barging mutex -----

  function Bit(b: bool): nat
  {
    if b then 1 else 0
  }

  /** The shifted count loses its two highest bits. */
  function EncodeMutex(size: nat, val: FastMutex.Word): nat
    requires size > 0
  {
    Bit(val.locked) + 2 * Bit(val.waking) + 4 * val.waiters % size
  }

  function DecodeMutex(raw: nat): FastMutex.Word
  {
    FastMutex.Word(raw % 2 == 1, raw / 2 % 2 == 1, raw / 4)
  }

  /** The word survives packing exactly if the count leaves two bits free. */
  lemma {:induction false} MutexRoundTrip(size: nat, val: FastMutex.Word)
    requires size > 0 && size % 4 == 0
    ensures DecodeMutex(EncodeMutex(size, val)) == val <==> val.waiters < size / 4
  {
    var q := size / 4;
    var r := val.waiters % q;
    assert 4 * val.waiters % size == 4 * r by {
      var k := val.waiters / q;
      assert val.waiters == k * q + r;
      assert 4 * val.waiters == k * size + 4 * r by {
        assert k * size == k * (4 * q) == 4 * (k * q);
      }
      Remainder(4 * val.waiters, k, 4 * r, size);
    }
    if val.waiters < q {
      InRange(val.waiters, q);
    }
  }

  /** With fewer tasks than the count can hold, no state of any run is truncated. */
  lemma {:induction false} MutexFits(size: nat, tasks: nat, schedule: seq<(nat, FastMutex.Choice)>)
    requires size > 0 && size % 4 == 0 && tasks < size / 4
    ensures var s := FastMutex.Run(FastMutex.Init(tasks), schedule);
            DecodeMutex(EncodeMutex(size, s.word)) == s.word
  {
    var s := FastMutex.Run(FastMutex.Init(tasks), schedule);
    FastMutexProof.RunTasks(tasks, schedule);
    if s.pcs == [] {
      FastMutexProof.RunKeeps(tasks, schedule);
    } else {
      FastMutexProof.WordIsExact(tasks, schedule, 0, 0);
    }
    AtMostOneEach(s.pcs, FastMutexProof.Units);
    MutexRoundTrip(size, s.word);
  }

  // ----- the channel -----

  /** The capacities the constructor accepts lose nothing in any state of any run. */
  lemma {:induction false} ChannelFits(half: nat, cap: nat, senders: nat, schedule: seq<(Mpsc.Actor, Mpsc.Choice)>)
    requires 0 < cap <= half - 1
    ensures var word := Mpsc.Run(Mpsc.Init(cap, senders), schedule).word;
            var val := Pair(word.size, word.writeHead);
            Decode(half, Encode(half, val)) == val
  {
    hide Mpsc.Run, Mpsc.Init, MpscProof.Inv, Encode, Decode;
    var s := Mpsc.Run(Mpsc.Init(cap, senders), schedule);
    MpscOrder.RunCap(cap, senders, schedule);
    MpscProof.RunKeeps(cap, senders, schedule);
    MpscProof.InvParts(s);
    PairRoundTrip(half, Pair(s.word.size, s.word.writeHead));
  }

  // ----- the reader-writer lock -----

  function Sleeps(pc: RwLock.Pc): nat
  {
    if RwLockProof.Asleep(pc) then 1 else 0
  }

  /** Different sleeping tasks are at most as many as there are. */
  lemma {:induction false} SleepersCount(pcs: seq<RwLock.Pc>, list: seq<Waiter>)
    requires forall i, j :: 0 <= i < j < |list| ==> list[i].task != list[j].task
    requires forall i :: 0 <= i < |list| ==> list[i].task < |pcs| && RwLockProof.Asleep(pcs[list[i].task])
    ensures |list| <= Sum(pcs, Sleeps)
    decreases |list|
  {
    hide RwLockProof.Asleep;
    if list != [] {
      var t := list[0].task;
      var rest := pcs[t := RwLock.Idle];
      SumUpdate(pcs, Sleeps, t, RwLock.Idle);
      IdleIsAwake();
      forall i | 0 <= i < |list[1..]|
        ensures list[1..][i].task != t
      {
        assert list[1..][i] == list[i + 1];
      }
      SleepersCount(rest, list[1..]);
    }
  }

  lemma {:induction false} IdleIsAwake()
    ensures Sleeps(RwLock.Idle) == 0
  {
  }

  /** Waiters in a hand belong to different sleeping tasks. */
  lemma {:induction false} HandSleeps(s: RwLock.State, k: nat)
    requires RwLockProof.Law(s) && k < |s.pcs|
    ensures var list := RwLockProof.PartOf(s.pcs[k]).hand;
            && (forall i, j :: 0 <= i < j < |list| ==> list[i].task != list[j].task)
            && (forall i :: 0 <= i < |list| ==> list[i].task < |s.pcs| && RwLockProof.Asleep(s.pcs[list[i].task]))
  {
    var parts := RwLockProof.Parts(s.pcs);
    var list := parts[k].hand;
    GatherAt(parts, HandOf, k);
    forall i | 0 <= i < |list|
      ensures Waits(parts, list[i]) && multiset(list)[list[i]] == 1
    {
      assert list[i] in multiset(list);
      assert Listed(s.futex, parts)[list[i]] >= multiset(list)[list[i]];
    }
    forall i, j | 0 <= i < j < |list|
      ensures list[i].task != list[j].task
    {
      if list[i].task == list[j].task {
        assert list[i] == list[j];
        Twice(list, i, j);
        assert false;
      }
    }
  }

  /** Only a task that wakes a list of readers holds more than one read unit. */
  lemma {:induction false} OneEach(pc: RwLock.Pc)
    ensures RwLockProof.WriteUnits(pc) <= 1
    ensures !pc.DownWake? ==> RwLockProof.ReadUnits(pc) <= 1
    ensures !pc.DownWake? ==> RwLockProof.ReadUnits(pc) + Sleeps(pc) <= 1
  {
  }

  /** The readers being woken still sleep, so each of them stands for one unit. */
  lemma {:induction false} WakingBounded(s: RwLock.State, k: nat)
    requires RwLockProof.Law(s) && k < |s.pcs| && s.pcs[k].DownWake?
    requires forall i :: 0 <= i < |s.pcs| && i != k ==> !s.pcs[i].DownWake?
    ensures Sum(s.pcs, RwLockProof.ReadUnits) <= |s.pcs|
  {
    hide RwLockProof.Law, RwLockProof.Asleep, Sleeps;
    var list := s.pcs[k].list;
    HandSleeps(s, k);
    SleepersCount(s.pcs, list);
    var others := s.pcs[k := RwLock.Idle];
    SumUpdate(s.pcs, RwLockProof.ReadUnits, k, RwLock.Idle);
    SumUpdate(s.pcs, Sleeps, k, RwLock.Idle);
    WakerIsAwake(s.pcs[k]);
    forall i | 0 <= i < |others|
      ensures RwLockProof.ReadUnits(others[i]) + Sleeps(others[i]) <= 1
    {
      OneEach(others[i]);
    }
    TwoWeights(others, RwLockProof.ReadUnits, Sleeps);
  }

  lemma {:induction false} WakerIsAwake(pc: RwLock.Pc)
    requires pc.DownWake?
    ensures Sleeps(pc) == Sleeps(RwLock.Idle) == 0
  {
  }

  lemma {:induction false} OneWaker(s: RwLock.State, i: nat, k: nat)
    requires RwLockProof.Inv(s) && i < |s.pcs| && k < |s.pcs| && s.pcs[i].DownWake? && s.pcs[k].DownWake?
    ensures i == k
  {
    RwLockProof.PcHolds(s, i);
    RwLockProof.PcHolds(s, k);
    if i != k {
      SumTwo(s.pcs, RwLockProof.Notifiers, i, k);
    }
  }

  /** Neither counter ever exceeds the number of tasks. */
  lemma {:induction false} CountersBounded(s: RwLock.State)
    requires RwLockProof.Inv(s)
    ensures s.word.readers <= |s.pcs| && s.word.writers <= |s.pcs|
  {
    hide RwLockProof.Law, RwLockProof.Local, RwLockProof.ReadUnits, RwLockProof.WriteUnits, RwLockProof.Tokens,
        RwLockProof.Notifiers;
    forall i | 0 <= i < |s.pcs|
      ensures RwLockProof.WriteUnits(s.pcs[i]) <= 1
      ensures !s.pcs[i].DownWake? ==> RwLockProof.ReadUnits(s.pcs[i]) <= 1
    {
      OneEach(s.pcs[i]);
    }
    AtMostOneEach(s.pcs, RwLockProof.WriteUnits);
    if k :| 0 <= k < |s.pcs| && s.pcs[k].DownWake? {
      forall i | 0 <= i < |s.pcs| && i != k
        ensures !s.pcs[i].DownWake?
      {
        if s.pcs[i].DownWake? {
          OneWaker(s, i, k);
        }
      }
      WakingBounded(s, k);
    } else {
      AtMostOneEach(s.pcs, RwLockProof.ReadUnits);
    }
  }

  /** With fewer tasks than a half word has values, no state of any run is truncated. */
  lemma {:induction false} LockFits(half: nat, tasks: nat, schedule: seq<(nat, RwLock.Choice)>)
    requires tasks < half
    ensures var word := RwLock.Run(RwLock.Init(tasks), schedule).word;
            var val := Pair(word.readers, word.writers);
            Decode(half, Encode(half, val)) == val
  {
    hide RwLock.Run, RwLock.Init, RwLockProof.Inv, Encode, Decode;
    var s := RwLock.Run(RwLock.Init(tasks), schedule);
    RwLockProof.RunKeeps(tasks, schedule);
    RwLockProof.RunTasks(tasks, schedule);
    CountersBounded(s);
    PairRoundTrip(half, Pair(s.word.readers, s.word.writers));
  }
}
