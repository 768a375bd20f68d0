/** No notification of the ticketed wait queue is lost: the count kept per bucket, the
  life of a bucket, and the closing of generations, over every run.
 */
module TicketQueueProof {
  import opened Options
  import opened Places
  import opened TicketQueue

  // ----- counting the tickets of one bucket -----

  /** How many tickets from lo up to hi fall on place r of cap. */
  function Count(lo: nat, hi: nat, r: nat, cap: nat): nat
    requires cap > 0
    decreases hi - lo
  {
    if lo >= hi then 0 else (if lo % cap == r then 1 else 0) + Count(lo + 1, hi, r, cap)
  }

  lemma {:induction false} CountSplit(lo: nat, mid: nat, hi: nat, r: nat, cap: nat)
    requires cap > 0 && lo <= mid <= hi
    ensures Count(lo, hi, r, cap) == Count(lo, mid, r, cap) + Count(mid, hi, r, cap)
    decreases mid - lo
  {
    if lo < mid {
      CountSplit(lo + 1, mid, hi, r, cap);
    }
  }

  lemma {:induction false} CountNone(lo: nat, hi: nat, p: nat, cap: nat)
    requires cap > 0 && p < lo && hi <= p + cap
    ensures Count(lo, hi, p % cap, cap) == 0
    decreases hi - lo
  {
    if lo < hi {
      if lo % cap == p % cap {
        SamePlace(p, lo, cap);
      }
      CountNone(lo + 1, hi, p, cap);
    }
  }

  /** Up to the k-th round of its place a ticket is the only one of that round. */
  lemma {:induction false} CountUpTo(n: nat, r: nat, k: nat, cap: nat)
    requires r < cap && n <= r + k * cap
    ensures Count(0, n, r, cap) <= k
    decreases k
  {
    if k == 0 {
      CountBefore(n, r, cap);
    } else {
      var m := r + (k - 1) * cap;
      if n <= m {
        CountUpTo(n, r, k - 1, cap);
      } else {
        CountSplit(0, m, n, r, cap);
        CountUpTo(m, r, k - 1, cap);
        PlaceOf(r, k - 1, cap);
        CountNone(m + 1, n, m, cap);
      }
    }
  }

  lemma {:induction false} CountBefore(n: nat, r: nat, cap: nat)
    requires n <= r < cap
    ensures Count(0, n, r, cap) == 0
    decreases n
  {
    if n > 0 {
      CountSplit(0, n - 1, n, r, cap);
      CountBefore(n - 1, r, cap);
      InRange(n - 1, cap);
    }
  }

  lemma {:induction false} CountPast(n: nat, r: nat, k: nat, cap: nat)
    requires r < cap && r + k * cap < n
    ensures Count(0, n, r, cap) >= k + 1
    decreases k
  {
    var m := r + k * cap;
    CountSplit(0, m, n, r, cap);
    PlaceOf(r, k, cap);
    if k > 0 {
      CountPast(m, r, k - 1, cap);
    }
  }

  // ----- what a task owes -----

  /** The first ticket a notifier still has to serve. */
  function First(pc: Pc): nat
  {
    match pc
    case NotifyLoad(_, from, _) => from
    case NotifyCas(_, from, _, _) => from
    case NotifyWake(_, from, _, _) => from + 1
    case ExpandLock(_, from, _) => from
    case Sweep(_, from, _, _) => from
    case SweepWake(_, from, _, _, _) => from
    case _ => 0
  }

  function Last(pc: Pc): nat
  {
    match pc
    case NotifyLoad(_, _, to) => to
    case NotifyCas(_, _, to, _) => to
    case NotifyWake(_, _, to, _) => to
    case ExpandLock(_, _, to) => to
    case Sweep(_, _, to, _) => to
    case SweepWake(_, _, to, _, _) => to
    case _ => 0
  }

  /** How many notifications a task still owes to place r of a generation. */
  function Debt(pc: Pc, gen: nat, r: nat, cap: nat): nat
    requires cap > 0
  {
    if GenOf(pc) == Some(gen) then Count(First(pc), Last(pc), r, cap) else 0
  }

  function Pending(pcs: seq<Pc>, gen: nat, r: nat, cap: nat): nat
    requires cap > 0
  {
    if pcs == [] then 0 else Debt(pcs[0], gen, r, cap) + Pending(pcs[1..], gen, r, cap)
  }

  lemma {:induction false} PendingUpdate(pcs: seq<Pc>, t: nat, pc: Pc, gen: nat, r: nat, cap: nat)
    requires cap > 0 && t < |pcs|
    ensures Pending(pcs[t := pc], gen, r, cap) + Debt(pcs[t], gen, r, cap)
         == Pending(pcs, gen, r, cap) + Debt(pc, gen, r, cap)
  {
    if t == 0 {
      assert pcs[t := pc][1..] == pcs[1..];
    } else {
      assert pcs[t := pc][1..] == pcs[1..][t - 1 := pc];
      PendingUpdate(pcs[1..], t - 1, pc, gen, r, cap);
    }
  }

  lemma {:induction false} PendingNone(pcs: seq<Pc>, gen: nat, r: nat, cap: nat)
    requires cap > 0 && forall i :: 0 <= i < |pcs| ==> GenOf(pcs[i]) != Some(gen) || First(pcs[i]) >= Last(pcs[i])
    ensures Pending(pcs, gen, r, cap) == 0
  {
    if pcs != [] {
      PendingNone(pcs[1..], gen, r, cap);
    }
  }

  // ----- the invariant -----

  predicate Shape(gens: seq<Generation>, atom: Atom)
  {
    && |gens| > 0 && atom.gen == |gens| - 1 && atom.notifies <= atom.waits
    && forall g :: 0 <= g < |gens| ==> |gens[g]| > 0
  }

  /** The ticket a bucket serves in its current round. */
  function Round(r: nat, cap: nat, done: nat): nat
  {
    r + done * cap
  }

  /** An open bucket has received as many notifications as it has finished tickets, and
    one more while one of them is under way. */
  predicate CellOk(cell: Cell, r: nat, cap: nat)
  {
    match cell.bucket
    case Empty(ticket) => ticket == Round(r, cap, cell.done) && cell.applied == cell.done
    case Woken(ticket) => ticket == Round(r, cap, cell.done) && cell.applied == cell.done + 1
    case Waiting(_) => cell.applied == cell.done
    case Waking => cell.applied == cell.done + 1
    case Tombstone => true
  }

  predicate GenOk(gen: Generation)
  {
    forall r :: 0 <= r < |gen| ==> CellOk(gen[r], r, |gen|)
  }

  predicate Cells(gens: seq<Generation>)
  {
    forall g :: 0 <= g < |gens| ==> GenOk(gens[g])
  }

  predicate Closed(gen: Generation)
  {
    forall r :: 0 <= r < |gen| ==> gen[r].bucket.Tombstone?
  }

  predicate Past(gens: seq<Generation>)
  {
    forall g :: 0 <= g < |gens| - 1 ==> Closed(gens[g])
  }

  predicate Holds(pc: Pc)
  {
    pc.Sweep? || pc.SweepWake? || pc.Publish?
  }

  predicate Locking(atom: Atom, newest: nat, mutex: Option<nat>, pcs: seq<Pc>)
  {
    && (mutex.Some? ==> mutex.value < |pcs|)
    && (mutex.None? ==> newest == atom.gen)
    && forall i :: 0 <= i < |pcs| ==> LockOk(atom, newest, mutex, i, pcs[i])
  }

  predicate LockOk(atom: Atom, newest: nat, mutex: Option<nat>, i: nat, pc: Pc)
  {
    && (Holds(pc) <==> mutex == Some(i))
    && (pc.Sweep? || pc.SweepWake? ==> pc.gen == newest == atom.gen)
    && (pc.Publish? ==> pc.gen == newest && atom.gen == pc.gen + 1)
  }

  /** How far the current generation has been closed. */
  function Swept(mutex: Option<nat>, pcs: seq<Pc>): nat
  {
    if mutex.Some? && mutex.value < |pcs| then
      match pcs[mutex.value]
      case Sweep(_, _, _, next) => next
      case SweepWake(_, _, _, next, _) => next + 1
      case _ => 0
    else 0
  }

  predicate ClosedUpTo(gen: Generation, n: nat)
  {
    n <= |gen| && forall r :: 0 <= r < |gen| ==> (gen[r].bucket.Tombstone? <==> r < n)
  }

  /** Notifications received and owed add up to the tickets notified. */
  predicate CountedAt(gen: Generation, atom: Atom, pcs: seq<Pc>, r: nat)
    requires r < |gen|
  {
    gen[r].applied + Pending(pcs, atom.gen, r, |gen|) == Count(0, atom.notifies, r, |gen|)
  }

  predicate Counted(gen: Generation, atom: Atom, pcs: seq<Pc>)
  {
    forall r :: 0 <= r < |gen| ==> CountedAt(gen, atom, pcs, r)
  }

  predicate HasTicket(pc: Pc)
  {
    pc.EnterCas? || pc.EnterCheck? || pc.Parked? || pc.PollLoad? || pc.PollCas?
  }

  predicate SameTicket(pc: Pc, pc': Pc)
  {
    HasTicket(pc) && HasTicket(pc') && pc.gen == pc'.gen && pc.ticket == pc'.ticket
  }

  predicate Tickets(atom: Atom, pcs: seq<Pc>)
  {
    && (forall i :: 0 <= i < |pcs| ==> TicketOk(atom, pcs[i]))
    && forall i, j :: 0 <= i < j < |pcs| ==> !SameTicket(pcs[i], pcs[j])
  }

  predicate TicketOk(atom: Atom, pc: Pc)
  {
    && (GenOf(pc).Some? ==> GenOf(pc).value <= atom.gen)
    && (HasTicket(pc) && pc.gen == atom.gen ==> pc.ticket < atom.waits)
  }

  /** The task has put its waker into the bucket of its ticket and not seen the answer. */
  predicate Waits(pc: Pc)
  {
    pc.EnterCheck? || pc.Parked? || pc.PollLoad? || pc.PollCas?
  }

  predicate Rings(pc: Pc, waker: nat)
  {
    (pc.NotifyWake? || pc.SweepWake?) && pc.waker == waker
  }

  predicate Ringing(pcs: seq<Pc>, waker: nat)
  {
    exists i :: 0 <= i < |pcs| && Rings(pcs[i], waker)
  }

  /** A waiting task finds its own round in its bucket, or the bucket closed; and once it
    is notified its waker has been or is about to be invoked. */
  predicate WaitOk(gens: seq<Generation>, rung: set<nat>, pcs: seq<Pc>, pc: Pc)
  {
    Waits(pc) ==>
      && pc.gen < |gens| && |gens[pc.gen]| > 0
      && var cap := |gens[pc.gen]|;
         var r := pc.ticket % cap;
         var cell := gens[pc.gen][r];
         && (cell.bucket.Waiting? || cell.bucket.Waking? || cell.bucket.Tombstone?)
         && (cell.bucket.Waiting? ==> cell.bucket.waker == pc.waker)
         && (!cell.bucket.Tombstone? ==> pc.ticket == Round(r, cap, cell.done))
         && (!cell.bucket.Waiting? ==> pc.waker in rung || Ringing(pcs, pc.waker))
         && (pc.PollCas? ==> pc.seen.Waiting? || pc.seen.Waking? || pc.seen.Tombstone?)
  }

  predicate Waiters(gens: seq<Generation>, rung: set<nat>, pcs: seq<Pc>)
  {
    forall i :: 0 <= i < |pcs| ==> WaitOk(gens, rung, pcs, pcs[i])
  }

  /** A notifier at work has a ticket to serve, and nobody is where it must not be. */
  predicate PcSound(pc: Pc)
  {
    !pc.Crashed? && (pc.NotifyLoad? || pc.NotifyCas? ==> pc.from < pc.to)
  }

  predicate Sound(pcs: seq<Pc>)
  {
    forall i :: 0 <= i < |pcs| ==> PcSound(pcs[i])
  }

  predicate Inv(s: State)
  {
    && Shape(s.gens, s.atom)
    && Cells(s.gens)
    && Past(s.gens)
    && Locking(s.atom, s.newest, s.mutex, s.pcs)
    && ClosedUpTo(s.gens[s.atom.gen], Swept(s.mutex, s.pcs))
    && Counted(s.gens[s.atom.gen], s.atom, s.pcs)
    && Tickets(s.atom, s.pcs)
    && Waiters(s.gens, s.rung, s.pcs)
    && Sound(s.pcs)
  }

  // ----- reading the invariant -----

  lemma {:induction false} Exist(s: State, t: nat)
    requires Inv(s) && t < |s.pcs|
    ensures GenOf(s.pcs[t]).Some? ==> GenOf(s.pcs[t]).value <= s.atom.gen && Exists(s, GenOf(s.pcs[t]).value)
    ensures s.atom.gen < |s.gens| && |s.gens[s.atom.gen]| > 0
    ensures PcSound(s.pcs[t])
  {
    assert TicketOk(s.atom, s.pcs[t]);
  }

  lemma {:induction false} LockAt(s: State, t: nat)
    requires Inv(s) && t < |s.pcs|
    ensures LockOk(s.atom, s.newest, s.mutex, t, s.pcs[t])
    ensures s.mutex.None? ==> s.newest == s.atom.gen
  {
  }

  lemma {:induction false} WaitAt(s: State, t: nat)
    requires Inv(s) && t < |s.pcs|
    ensures WaitOk(s.gens, s.rung, s.pcs, s.pcs[t])
  {
  }

  lemma {:induction false} CellAt(s: State, gen: nat, r: nat)
    requires Inv(s) && gen < |s.gens| && r < |s.gens[gen]|
    ensures CellOk(s.gens[gen][r], r, |s.gens[gen]|)
    ensures gen < s.atom.gen ==> s.gens[gen][r].bucket.Tombstone?
    ensures gen == s.atom.gen ==> (s.gens[gen][r].bucket.Tombstone? <==> r < Swept(s.mutex, s.pcs))
  {
    assert GenOk(s.gens[gen]);
    if gen < s.atom.gen {
      assert Closed(s.gens[gen]);
    }
  }

  // ----- how each part follows a step of one task -----

  lemma {:induction false} LockFollows(atom: Atom, atom': Atom, newest: nat, mutex: Option<nat>, pcs: seq<Pc>, t: nat,
          pc: Pc)
    requires Locking(atom, newest, mutex, pcs) && t < |pcs| && atom'.gen == atom.gen
    requires LockOk(atom', newest, mutex, t, pc)
    ensures Locking(atom', newest, mutex, pcs[t := pc])
  {
    forall i | 0 <= i < |pcs| && i != t
      ensures LockOk(atom', newest, mutex, i, pcs[i])
    {
      assert LockOk(atom, newest, mutex, i, pcs[i]);
    }
  }

  lemma {:induction false} SweptFollows(mutex: Option<nat>, pcs: seq<Pc>, t: nat, pc: Pc)
    requires t < |pcs|
    requires mutex == Some(t) ==> pcs[t].SweepWake? && pc.Sweep? && pc.next == pcs[t].next + 1
    ensures Swept(mutex, pcs[t := pc]) == Swept(mutex, pcs)
  {
  }

  lemma {:induction false} CountFollows(gen: Generation, gen': Generation, atom: Atom, pcs: seq<Pc>, t: nat, pc: Pc)
    requires Counted(gen, atom, pcs) && t < |pcs| && |gen'| == |gen| > 0
    requires forall r :: 0 <= r < |gen| ==>
               gen'[r].applied + Debt(pc, atom.gen, r, |gen|) == gen[r].applied + Debt(pcs[t], atom.gen, r, |gen|)
    ensures Counted(gen', atom, pcs[t := pc])
  {
    var pcs' := pcs[t := pc];
    forall r | 0 <= r < |gen|
      ensures CountedAt(gen', atom, pcs', r)
    {
      assert CountedAt(gen, atom, pcs, r);
      PendingUpdate(pcs, t, pc, atom.gen, r, |gen|);
    }
  }

  lemma {:induction false} TicketsFollow(atom: Atom, pcs: seq<Pc>, t: nat, pc: Pc)
    requires Tickets(atom, pcs) && t < |pcs| && TicketOk(atom, pc)
    requires HasTicket(pc) ==> SameTicket(pc, pcs[t])
    ensures Tickets(atom, pcs[t := pc])
  {
    var pcs' := pcs[t := pc];
    forall i, j | 0 <= i < j < |pcs|
      ensures !SameTicket(pcs'[i], pcs'[j])
    {
      assert !SameTicket(pcs[i], pcs[j]);
    }
  }

  lemma {:induction false} RingingFollows(pcs: seq<Pc>, t: nat, pc: Pc, waker: nat)
    requires t < |pcs| && Ringing(pcs, waker) && (Rings(pcs[t], waker) ==> Rings(pc, waker))
    ensures Ringing(pcs[t := pc], waker)
  {
    var i :| 0 <= i < |pcs| && Rings(pcs[i], waker);
    assert Rings(pcs[t := pc][i], waker);
  }

  /** The buckets stay; a task that rings either goes on or has rung. */
  lemma {:induction false} WaitersFollow(gens: seq<Generation>, rung: set<nat>, rung': set<nat>, pcs: seq<Pc>, t: nat,
          pc: Pc)
    requires Waiters(gens, rung, pcs) && t < |pcs| && rung <= rung'
    requires forall w :: Rings(pcs[t], w) ==> w in rung' || Rings(pc, w)
    requires WaitOk(gens, rung', pcs[t := pc], pc)
    ensures Waiters(gens, rung', pcs[t := pc])
  {
    var pcs' := pcs[t := pc];
    forall i | 0 <= i < |pcs| && i != t
      ensures WaitOk(gens, rung', pcs', pcs[i])
    {
      assert WaitOk(gens, rung, pcs, pcs[i]);
      if Waits(pcs[i]) && Ringing(pcs, pcs[i].waker) && pcs[i].waker !in rung' {
        RingingFollows(pcs, t, pc, pcs[i].waker);
      }
    }
  }

  /** A step of one task that changes neither buckets nor tickets. */
  lemma {:induction false} TurnKeeps(s: State, t: nat, pc: Pc, wakers: nat, rung: set<nat>)
    requires Inv(s) && t < |s.pcs|
    requires LockOk(s.atom, s.newest, s.mutex, t, pc)
    requires Swept(s.mutex, s.pcs[t := pc]) == Swept(s.mutex, s.pcs)
    requires s.atom.gen < |s.gens|
    requires forall r :: 0 <= r < |s.gens[s.atom.gen]| ==>
               Debt(pc, s.atom.gen, r, |s.gens[s.atom.gen]|) == Debt(s.pcs[t], s.atom.gen, r, |s.gens[s.atom.gen]|)
    requires TicketOk(s.atom, pc) && (HasTicket(pc) ==> SameTicket(pc, s.pcs[t]))
    requires s.rung <= rung && forall w :: Rings(s.pcs[t], w) ==> w in rung || Rings(pc, w)
    requires WaitOk(s.gens, rung, s.pcs[t := pc], pc) && PcSound(pc)
    ensures Inv(s.(pcs := s.pcs[t := pc], wakers := wakers, rung := rung))
  {
    hide Cells, Past, LockOk, Swept, ClosedUpTo, Debt, TicketOk, SameTicket, HasTicket, WaitOk, Rings,
         Counted, Tickets, Waiters, Locking;
    var gen := s.gens[s.atom.gen];
    LockFollows(s.atom, s.atom, s.newest, s.mutex, s.pcs, t, pc);
    CountFollows(gen, gen, s.atom, s.pcs, t, pc);
    TicketsFollow(s.atom, s.pcs, t, pc);
    WaitersFollow(s.gens, s.rung, rung, s.pcs, t, pc);
  }

  /** Turning to another program point outside the closing of a generation. */
  lemma {:induction false} PlainKeeps(s: State, t: nat, pc: Pc, wakers: nat, rung: set<nat>)
    requires Inv(s) && t < |s.pcs| && !Holds(s.pcs[t]) && !Holds(pc) && PcSound(pc)
    requires GenOf(pc).Some? ==> GenOf(pc) == GenOf(s.pcs[t]) || GenOf(pc).value <= s.atom.gen
    requires GenOf(s.pcs[t]) == Some(s.atom.gen) && First(s.pcs[t]) < Last(s.pcs[t]) ==>
               GenOf(pc) == GenOf(s.pcs[t]) && First(pc) == First(s.pcs[t]) && Last(pc) == Last(s.pcs[t])
    requires GenOf(pc) == Some(s.atom.gen) && First(pc) < Last(pc) ==>
               GenOf(pc) == GenOf(s.pcs[t]) && First(pc) == First(s.pcs[t]) && Last(pc) == Last(s.pcs[t])
    requires HasTicket(pc) ==> SameTicket(pc, s.pcs[t])
    requires s.rung <= rung && forall w :: Rings(s.pcs[t], w) ==> w in rung || Rings(pc, w)
    requires WaitOk(s.gens, rung, s.pcs[t := pc], pc)
    ensures Inv(s.(pcs := s.pcs[t := pc], wakers := wakers, rung := rung))
  {
    hide Inv, WaitOk, Rings, CellOk, Round;
    Exist(s, t);
    LockAt(s, t);
    PlainFacts(s, t, pc);
    TurnKeeps(s, t, pc, wakers, rung);
  }

  lemma {:induction false} PlainFacts(s: State, t: nat, pc: Pc)
    requires Inv(s) && t < |s.pcs| && !Holds(s.pcs[t]) && !Holds(pc)
    requires GenOf(pc).Some? ==> GenOf(pc) == GenOf(s.pcs[t]) || GenOf(pc).value <= s.atom.gen
    requires HasTicket(pc) ==> SameTicket(pc, s.pcs[t])
    ensures TicketOk(s.atom, pc)
    ensures Swept(s.mutex, s.pcs[t := pc]) == Swept(s.mutex, s.pcs)
    ensures LockOk(s.atom, s.newest, s.mutex, t, pc)
  {
    hide Shape, Cells, Past, ClosedUpTo, Counted, Waiters;
    assert TicketOk(s.atom, s.pcs[t]);
    assert LockOk(s.atom, s.newest, s.mutex, t, s.pcs[t]);
  }

  // ----- notify: taking tickets to serve -----

  lemma {:induction false} NotifyTake(gen: Generation, atom: Atom, atom': Atom, pcs: seq<Pc>, t: nat, pc: Pc)
    requires Counted(gen, atom, pcs) && t < |pcs| && |gen| > 0 && GenOf(pcs[t]).None?
    requires atom' == atom.(notifies := atom'.notifies) && atom.notifies <= atom'.notifies
    requires pc == NextTicket(atom.gen, atom.notifies, atom'.notifies)
    ensures Counted(gen, atom', pcs[t := pc])
  {
    var pcs' := pcs[t := pc];
    forall r | 0 <= r < |gen|
      ensures CountedAt(gen, atom', pcs', r)
    {
      assert CountedAt(gen, atom, pcs, r);
      PendingUpdate(pcs, t, pc, atom.gen, r, |gen|);
      CountSplit(0, atom.notifies, atom'.notifies, r, |gen|);
    }
  }

  lemma {:induction false} AtomTickets(atom: Atom, atom': Atom, pcs: seq<Pc>)
    requires Tickets(atom, pcs) && atom'.gen == atom.gen && atom.waits <= atom'.waits
    ensures Tickets(atom', pcs)
  {
    forall i | 0 <= i < |pcs|
      ensures TicketOk(atom', pcs[i])
    {
      assert TicketOk(atom, pcs[i]);
    }
  }

  lemma {:induction false} NotifyTryKeeps(s: State, t: nat, c: Choice, add: nat, snap: Atom)
    requires Inv(s) && t < |s.pcs| && s.pcs[t] == NotifyTry(add, snap)
    ensures Inv(StepNotifyTry(s, t, c, add, snap))
  {
    if c.spurious || snap != s.atom {
      hide Inv;
      PlainKeeps(s, t, NotifyTry(add, s.atom), s.wakers, s.rung);
    } else {
      NotifyTakes(s, t, snap.(notifies := Min(snap.notifies + add, snap.waits)));
    }
  }

  lemma {:induction false} NotifyTakes(s: State, t: nat, atom: Atom)
    requires Inv(s) && t < |s.pcs| && s.pcs[t].NotifyTry?
    requires atom == s.atom.(notifies := atom.notifies) && s.atom.notifies <= atom.notifies <= atom.waits
    ensures Inv(Goto(s, t, NextTicket(s.atom.gen, s.atom.notifies, atom.notifies)).(atom := atom))
  {
    hide Cells, Past, ClosedUpTo, Counted, Tickets, Waiters, Locking, LockOk, Swept, TicketOk;
    var pc := NextTicket(s.atom.gen, s.atom.notifies, atom.notifies);
    Exist(s, t);
    NotifyTakeFacts(s, t, pc);
    NotifyTake(s.gens[s.atom.gen], s.atom, atom, s.pcs, t, pc);
    LockFollows(s.atom, atom, s.newest, s.mutex, s.pcs, t, pc);
    SweptFollows(s.mutex, s.pcs, t, pc);
    TicketsFollow(s.atom, s.pcs, t, pc);
    AtomTickets(s.atom, atom, s.pcs[t := pc]);
    WaitersFollow(s.gens, s.rung, s.rung, s.pcs, t, pc);
  }

  lemma {:induction false} NotifyTakeFacts(s: State, t: nat, pc: Pc)
    requires Inv(s) && t < |s.pcs| && s.pcs[t].NotifyTry?
    requires pc.Idle? || (pc.NotifyLoad? && pc.gen == s.atom.gen)
    ensures TicketOk(s.atom, pc) && s.mutex != Some(t)
    ensures forall atom: Atom :: atom.gen == s.atom.gen ==> LockOk(atom, s.newest, s.mutex, t, pc)
  {
    LockAt(s, t);
  }

  // ----- waiting: taking a ticket -----

  lemma {:induction false} NewTicket(atom: Atom, pcs: seq<Pc>, t: nat, pc: Pc)
    requires Tickets(atom, pcs) && t < |pcs| && !HasTicket(pcs[t])
    requires pc.EnterCas? && pc.gen == atom.gen && pc.ticket == atom.waits
    ensures Tickets(atom.(waits := atom.waits + 1), pcs[t := pc])
  {
    var atom', pcs' := atom.(waits := atom.waits + 1), pcs[t := pc];
    forall i | 0 <= i < |pcs|
      ensures TicketOk(atom', pcs'[i])
      ensures i != t ==> !SameTicket(pcs[i], pc)
    {
      assert TicketOk(atom, pcs[i]);
    }
    forall i, j | 0 <= i < j < |pcs|
      ensures !SameTicket(pcs'[i], pcs'[j])
    {
      assert !SameTicket(pcs[i], pcs[j]);
    }
  }

  lemma {:induction false} AtomCounted(gen: Generation, atom: Atom, atom': Atom, pcs: seq<Pc>)
    requires Counted(gen, atom, pcs) && atom'.gen == atom.gen && atom'.notifies == atom.notifies
    ensures Counted(gen, atom', pcs)
  {
    forall r | 0 <= r < |gen|
      ensures CountedAt(gen, atom', pcs, r)
    {
      assert CountedAt(gen, atom, pcs, r);
    }
  }

  lemma {:induction false} EnterTakes(s: State, t: nat, snap: Atom)
    requires Inv(s) && t < |s.pcs| && s.pcs[t] == EnterTry(snap) && snap == s.atom
    ensures Inv(Goto(s, t, EnterCas(snap.gen, snap.waits, s.wakers, Empty(snap.waits))).(
              atom := snap.(waits := snap.waits + 1), wakers := s.wakers + 1))
  {
    hide Cells, Past, ClosedUpTo, Counted, Tickets, Waiters, Locking, LockOk, Swept;
    var pc, atom := EnterCas(snap.gen, snap.waits, s.wakers, Empty(snap.waits)), snap.(waits := snap.waits + 1);
    Exist(s, t);
    LockAt(s, t);
    EnterLock(s, t, pc);
    CountFollows(s.gens[s.atom.gen], s.gens[s.atom.gen], s.atom, s.pcs, t, pc);
    AtomCounted(s.gens[s.atom.gen], s.atom, atom, s.pcs[t := pc]);
    LockFollows(s.atom, atom, s.newest, s.mutex, s.pcs, t, pc);
    SweptFollows(s.mutex, s.pcs, t, pc);
    NewTicket(s.atom, s.pcs, t, pc);
    WaitersFollow(s.gens, s.rung, s.rung, s.pcs, t, pc);
  }

  lemma {:induction false} EnterLock(s: State, t: nat, pc: Pc)
    requires Inv(s) && t < |s.pcs| && s.pcs[t].EnterTry? && pc.EnterCas?
    ensures s.mutex != Some(t)
    ensures forall atom: Atom :: atom.gen == s.atom.gen ==> LockOk(atom, s.newest, s.mutex, t, pc)
  {
    LockAt(s, t);
  }

  lemma {:induction false} EnterTryKeeps(s: State, t: nat, c: Choice, snap: Atom)
    requires Inv(s) && t < |s.pcs| && s.pcs[t] == EnterTry(snap)
    ensures Inv(StepEnterTry(s, t, c, snap))
  {
    hide Inv;
    if c.spurious || snap != s.atom {
      PlainKeeps(s, t, EnterTry(s.atom), s.wakers, s.rung);
    } else {
      EnterTakes(s, t, snap);
    }
  }

  // ----- steps on one bucket of the current generation -----

  function Set(gens: seq<Generation>, g: nat, r: nat, cell: Cell): seq<Generation>
    requires g < |gens| && r < |gens[g]|
  {
    gens[g := gens[g][r := cell]]
  }

  lemma {:induction false} SetCells(gens: seq<Generation>, g: nat, r: nat, cell: Cell)
    requires Cells(gens) && g < |gens| && r < |gens[g]| && CellOk(cell, r, |gens[g]|)
    ensures Cells(Set(gens, g, r, cell))
  {
    var gens' := Set(gens, g, r, cell);
    forall h | 0 <= h < |gens|
      ensures GenOk(gens'[h])
    {
      assert GenOk(gens[h]);
    }
  }

  lemma {:induction false} SetPast(gens: seq<Generation>, g: nat, r: nat, cell: Cell)
    requires Past(gens) && g == |gens| - 1 && r < |gens[g]|
    ensures Past(Set(gens, g, r, cell))
  {
    var gens' := Set(gens, g, r, cell);
    forall h | 0 <= h < |gens'| - 1
      ensures Closed(gens'[h])
    {
      assert Closed(gens[h]);
    }
  }

  /** The waiters of all other buckets do not notice. */
  lemma {:induction false} SetWaiters(gens: seq<Generation>, rung: set<nat>, pcs: seq<Pc>, t: nat, pc: Pc,
                                      g: nat, r: nat, cell: Cell)
    requires Waiters(gens, rung, pcs) && t < |pcs| && g < |gens| && r < |gens[g]|
    requires forall w :: Rings(pcs[t], w) ==> w in rung || Rings(pc, w)
    requires var gens' := Set(gens, g, r, cell);
             && WaitOk(gens', rung, pcs[t := pc], pc)
             && forall i :: 0 <= i < |pcs| && i != t && OnPlace(gens, pcs[i], g, r) ==>
                 WaitOk(gens', rung, pcs[t := pc], pcs[i])
    ensures Waiters(Set(gens, g, r, cell), rung, pcs[t := pc])
  {
    var gens', pcs' := Set(gens, g, r, cell), pcs[t := pc];
    forall i | 0 <= i < |pcs|
      ensures WaitOk(gens', rung, pcs', pcs'[i])
    {
      if i != t && !OnPlace(gens, pcs[i], g, r) {
        assert WaitOk(gens, rung, pcs, pcs[i]);
        if Waits(pcs[i]) && Ringing(pcs, pcs[i].waker) && pcs[i].waker !in rung {
          RingingFollows(pcs, t, pc, pcs[i].waker);
        }
      }
    }
  }

  /** The task waits on place r of a generation. */
  predicate OnPlace(gens: seq<Generation>, pc: Pc, g: nat, r: nat)
    requires g < |gens| && r < |gens[g]|
  {
    Waits(pc) && pc.gen == g && pc.ticket % |gens[g]| == r
  }

  lemma {:induction false} SetClosed(gen: Generation, r: nat, cell: Cell, n: nat)
    requires ClosedUpTo(gen, n) && r < |gen| && (cell.bucket.Tombstone? <==> gen[r].bucket.Tombstone?)
    ensures ClosedUpTo(gen[r := cell], n)
  {
  }

  /** One task changes one open bucket of the current generation. */
  lemma {:induction false} PutKeeps(s: State, t: nat, r: nat, cell: Cell, pc: Pc)
    requires Inv(s) && t < |s.pcs| && s.atom.gen < |s.gens| && r < |s.gens[s.atom.gen]|
    requires var gen := s.gens[s.atom.gen];
             && CellOk(cell, r, |gen|) && !cell.bucket.Tombstone? && !gen[r].bucket.Tombstone?
             && forall q :: 0 <= q < |gen| ==>
                  gen[r := cell][q].applied + Debt(pc, s.atom.gen, q, |gen|)
                  == gen[q].applied + Debt(s.pcs[t], s.atom.gen, q, |gen|)
    requires !Holds(s.pcs[t]) && !Holds(pc) && PcSound(pc)
    requires TicketOk(s.atom, pc) && (HasTicket(pc) ==> SameTicket(pc, s.pcs[t]))
    requires Waiters(Set(s.gens, s.atom.gen, r, cell), s.rung, s.pcs[t := pc])
    ensures Inv(s.(gens := Set(s.gens, s.atom.gen, r, cell), pcs := s.pcs[t := pc]))
  {
    hide Cells, Past, ClosedUpTo, Counted, Tickets, Waiters, Locking, Swept, Debt, TicketOk, SameTicket, HasTicket,
        CellOk;
    LockAt(s, t);
    SetCells(s.gens, s.atom.gen, r, cell);
    SetPast(s.gens, s.atom.gen, r, cell);
    LockFollows(s.atom, s.atom, s.newest, s.mutex, s.pcs, t, pc);
    SweptFollows(s.mutex, s.pcs, t, pc);
    SetClosed(s.gens[s.atom.gen], r, cell, Swept(s.mutex, s.pcs));
    CountFollows(s.gens[s.atom.gen], s.gens[s.atom.gen][r := cell], s.atom, s.pcs, t, pc);
    TicketsFollow(s.atom, s.pcs, t, pc);
  }

  /** An open bucket is one of the current generation. */
  lemma {:induction false} OpenIsCurrent(s: State, gen: nat, ticket: nat)
    requires Inv(s) && Exists(s, gen) && gen <= s.atom.gen && !At(s, gen, ticket).bucket.Tombstone?
    ensures gen == s.atom.gen
    ensures CellOk(At(s, gen, ticket), ticket % |s.gens[gen]|, |s.gens[gen]|)
  {
    CellAt(s, gen, ticket % |s.gens[gen]|);
  }

  // ----- notify: serving a ticket -----

  lemma {:induction false} ServedDebt(pc: Pc, pc': Pc, gen: nat, from: nat, to: nat, q: nat, cap: nat)
    requires cap > 0 && from < to && GenOf(pc) == Some(gen) && First(pc) == from && Last(pc) == to
    requires || (GenOf(pc') == Some(gen) && First(pc') == from + 1 && Last(pc') == to)
             || (pc'.Idle? && from + 1 >= to)
    ensures Debt(pc, gen, q, cap) == Debt(pc', gen, q, cap) + if from % cap == q then 1 else 0
  {
    assert from + 1 >= to ==> Count(from + 1, to, q, cap) == 0;
  }

  /** Whoever waits on the bucket is told by the waker that is taken out of it. */
  lemma {:induction false} WakeWaiters(s: State, t: nat, from: nat, to: nat, waker: nat, cell: Cell)
    requires Inv(s) && t < |s.pcs| && s.pcs[t].NotifyCas? && Exists(s, s.atom.gen)
    requires At(s, s.atom.gen, from).bucket == Waiting(waker)
    requires cell == Cell(Waking, At(s, s.atom.gen, from).done, cell.applied)
    ensures Waiters(Set(s.gens, s.atom.gen, from % |s.gens[s.atom.gen]|, cell), s.rung,
                    s.pcs[t := NotifyWake(s.atom.gen, from, to, waker)])
  {
    var pc, g := NotifyWake(s.atom.gen, from, to, waker), s.atom.gen;
    var r := from % |s.gens[g]|;
    var gens', pcs' := Set(s.gens, g, r, cell), s.pcs[t := pc];
    assert Rings(pcs'[t], waker);
    forall i | 0 <= i < |s.pcs| && i != t && OnPlace(s.gens, s.pcs[i], g, r)
      ensures WaitOk(gens', s.rung, pcs', s.pcs[i])
    {
      WaitAt(s, i);
    }
    hide Inv;
    WaitersHold(s);
    SetWaiters(s.gens, s.rung, s.pcs, t, pc, g, r, cell);
  }

  lemma {:induction false} WaitersHold(s: State)
    requires Inv(s)
    ensures Waiters(s.gens, s.rung, s.pcs)
  {
  }

  lemma {:induction false} WakeCount(gen: Generation, r: nat, cell: Cell, pc: Pc, pc': Pc, g: nat, from: nat, to: nat)
    requires r < |gen| && r == from % |gen| && cell.applied == gen[r].applied + 1
    requires from < to && GenOf(pc) == Some(g) && First(pc) == from && Last(pc) == to
    requires || (GenOf(pc') == Some(g) && First(pc') == from + 1 && Last(pc') == to)
             || (pc'.Idle? && from + 1 >= to)
    ensures forall q :: 0 <= q < |gen| ==>
              gen[r := cell][q].applied + Debt(pc', g, q, |gen|) == gen[q].applied + Debt(pc, g, q, |gen|)
  {
    forall q | 0 <= q < |gen|
      ensures gen[r := cell][q].applied + Debt(pc', g, q, |gen|) == gen[q].applied + Debt(pc, g, q, |gen|)
    {
      ServedDebt(pc, pc', g, from, to, q, |gen|);
    }
  }

  /** Serving a ticket whose waiter is already in the bucket. */
  lemma {:induction false} WakeKeeps(s: State, t: nat, gen: nat, from: nat, to: nat, waker: nat)
    requires Inv(s) && t < |s.pcs| && s.pcs[t] == NotifyCas(gen, from, to, Waiting(waker)) && Exists(s, gen) &&
        from < to
    requires At(s, gen, from).bucket == Waiting(waker)
    ensures var cell := At(s, gen, from);
            Inv(Put(Goto(s, t, NotifyWake(gen, from, to, waker)), gen, from, Cell(Waking, cell.done, cell.applied + 1)))
  {
    hide Inv, WaitOk, Waiters, Debt;
    Exist(s, t);
    OpenIsCurrent(s, gen, from);
    var pc, was := NotifyWake(gen, from, to, waker), At(s, gen, from);
    var cell := Cell(Waking, was.done, was.applied + 1);
    WakeWaiters(s, t, from, to, waker, cell);
    WakeCount(s.gens[gen], from % |s.gens[gen]|, cell, s.pcs[t], pc, gen, from, to);
    PutKeeps(s, t, from % |s.gens[gen]|, cell, pc);
  }

  /** Nobody waits on a bucket that is Empty or Woken. */
  lemma {:induction false} NobodyWaits(s: State, i: nat, g: nat, r: nat)
    requires Inv(s) && i < |s.pcs| && g < |s.gens| && r < |s.gens[g]|
    requires s.gens[g][r].bucket.Empty? || s.gens[g][r].bucket.Woken?
    ensures !OnPlace(s.gens, s.pcs[i], g, r)
  {
    WaitAt(s, i);
  }

  lemma {:induction false} LeaveWaiters(s: State, t: nat, pc: Pc, g: nat, r: nat, cell: Cell)
    requires Inv(s) && t < |s.pcs| && g < |s.gens| && r < |s.gens[g]|
    requires s.gens[g][r].bucket.Empty? || s.gens[g][r].bucket.Woken?
    requires forall w :: !Rings(s.pcs[t], w)
    requires WaitOk(Set(s.gens, g, r, cell), s.rung, s.pcs[t := pc], pc)
    ensures Waiters(Set(s.gens, g, r, cell), s.rung, s.pcs[t := pc])
  {
    hide Inv, WaitOk;
    forall i | 0 <= i < |s.pcs|
      ensures !OnPlace(s.gens, s.pcs[i], g, r)
    {
      NobodyWaits(s, i, g, r);
    }
    WaitersHold(s);
    SetWaiters(s.gens, s.rung, s.pcs, t, pc, g, r, cell);
  }

  /** Serving a ticket before its waiter has come. */
  lemma {:induction false} EarlyKeeps(s: State, t: nat, gen: nat, from: nat, to: nat)
    requires Inv(s) && t < |s.pcs| && s.pcs[t] == NotifyCas(gen, from, to, Empty(from)) && Exists(s, gen) && from < to
    requires At(s, gen, from).bucket == Empty(from)
    ensures var cell := At(s, gen, from);
            Inv(Put(Goto(s, t, NextTicket(gen, from + 1, to)), gen, from,
                Cell(Woken(from), cell.done, cell.applied + 1)))
  {
    hide Inv, WaitOk, Waiters, Debt;
    Exist(s, t);
    OpenIsCurrent(s, gen, from);
    var pc, was := NextTicket(gen, from + 1, to), At(s, gen, from);
    var cell, r := Cell(Woken(from), was.done, was.applied + 1), from % |s.gens[gen]|;
    LeavesNoWait(Set(s.gens, gen, r, cell), s.rung, s.pcs[t := pc], pc);
    LeaveWaiters(s, t, pc, gen, r, cell);
    WakeCount(s.gens[gen], r, cell, s.pcs[t], pc, gen, from, to);
    PutKeeps(s, t, r, cell, pc);
  }

  lemma {:induction false} LeavesNoWait(gens: seq<Generation>, rung: set<nat>, pcs: seq<Pc>, pc: Pc)
    requires !Waits(pc)
    ensures WaitOk(gens, rung, pcs, pc)
  {
  }

  lemma {:induction false} NotifyCasKeeps(s: State, t: nat, c: Choice, gen: nat, from: nat, to: nat, seen: Bucket)
    requires Inv(s) && t < |s.pcs| && s.pcs[t] == NotifyCas(gen, from, to, seen) && Exists(s, gen) && from < to
    ensures Inv(StepNotifyCas(s, t, c, gen, from, to, seen))
  {
    hide Inv;
    var cell := At(s, gen, from);
    Exist(s, t);
    if (seen.Waiting? || seen == Empty(from)) && !c.spurious && seen == cell.bucket {
      if seen.Waiting? {
        WakeKeeps(s, t, gen, from, to, seen.waker);
      } else {
        EarlyKeeps(s, t, gen, from, to);
      }
    } else if seen.Waiting? || seen == Empty(from) {
      PlainKeeps(s, t, NotifyCas(gen, from, to, cell.bucket), s.wakers, s.rung);
    } else {
      PlainKeeps(s, t, ExpandLock(gen, from, to), s.wakers, s.rung);
    }
  }

  // ----- waiting: meeting the notifier -----

  lemma {:induction false} NextRound(r: nat, cap: nat, done: nat)
    ensures Round(r, cap, done + 1) == Round(r, cap, done) + cap
  {
  }

  lemma {:induction false} NoDebt(gen: Generation, r: nat, cell: Cell, pc: Pc, pc': Pc, g: nat)
    requires r < |gen| && cell.applied == gen[r].applied
    requires (HasTicket(pc) || pc.Idle?) && (HasTicket(pc') || pc'.Idle?)
    ensures forall q :: 0 <= q < |gen| ==>
              gen[r := cell][q].applied + Debt(pc', g, q, |gen|) == gen[q].applied + Debt(pc, g, q, |gen|)
  {
  }

  lemma {:induction false} EnterWaits(s: State, t: nat, gen: nat, ticket: nat, waker: nat)
    requires Inv(s) && t < |s.pcs| && s.pcs[t] == EnterCas(gen, ticket, waker, Empty(ticket)) && Exists(s, gen)
    requires At(s, gen, ticket).bucket == Empty(ticket)
    ensures Inv(Put(Goto(s, t, EnterCheck(gen, ticket, waker)), gen, ticket,
             At(s, gen, ticket).(bucket := Waiting(waker))))
  {
    hide Inv, Waiters, Debt;
    Exist(s, t);
    OpenIsCurrent(s, gen, ticket);
    var pc, cell, r := EnterCheck(gen, ticket, waker), At(s, gen, ticket).(bucket := Waiting(waker)),
        ticket % |s.gens[gen]|;
    NewWait(s.gens, s.rung, s.pcs[t := pc], gen, r, cell, pc);
    LeaveWaiters(s, t, pc, gen, r, cell);
    NoDebt(s.gens[gen], r, cell, s.pcs[t], pc, gen);
    TicketStays(s, t, pc);
    PutKeeps(s, t, r, cell, pc);
  }

  lemma {:induction false} TicketStays(s: State, t: nat, pc: Pc)
    requires Inv(s) && t < |s.pcs| && HasTicket(s.pcs[t])
    requires pc.Idle? || SameTicket(pc, s.pcs[t])
    ensures TicketOk(s.atom, pc)
  {
    assert TicketOk(s.atom, s.pcs[t]);
  }

  lemma {:induction false} NewWait(gens: seq<Generation>, rung: set<nat>, pcs: seq<Pc>, gen: nat, r: nat, cell: Cell,
          pc: Pc)
    requires gen < |gens| && r < |gens[gen]| && Waits(pc) && !pc.PollCas?
    requires pc.gen == gen && pc.ticket % |gens[gen]| == r
    requires cell.bucket == Waiting(pc.waker) && pc.ticket == Round(r, |gens[gen]|, cell.done)
    ensures WaitOk(Set(gens, gen, r, cell), rung, pcs, pc)
  {
  }

  /** A wait that finds itself notified already is finished at once. */
  lemma {:induction false} EnterPasses(s: State, t: nat, gen: nat, ticket: nat, waker: nat)
    requires Inv(s) && t < |s.pcs| && s.pcs[t] == EnterCas(gen, ticket, waker, Woken(ticket)) && Exists(s, gen)
    requires At(s, gen, ticket).bucket == Woken(ticket)
    ensures var cell := At(s, gen, ticket);
            Inv(Put(Goto(s, t, Idle), gen, ticket, Cell(Empty(ticket + |s.gens[gen]|), cell.done + 1, cell.applied)))
  {
    hide Inv, Waiters, Debt, WaitOk;
    Exist(s, t);
    OpenIsCurrent(s, gen, ticket);
    var was, r := At(s, gen, ticket), ticket % |s.gens[gen]|;
    var cell := Cell(Empty(ticket + |s.gens[gen]|), was.done + 1, was.applied);
    NextRound(r, |s.gens[gen]|, was.done);
    LeavesNoWait(Set(s.gens, gen, r, cell), s.rung, s.pcs[t := Idle], Idle);
    LeaveWaiters(s, t, Idle, gen, r, cell);
    NoDebt(s.gens[gen], r, cell, s.pcs[t], Idle, gen);
    PutKeeps(s, t, r, cell, Idle);
  }

  lemma {:induction false} EnterCasKeeps(s: State, t: nat, c: Choice, gen: nat, ticket: nat, waker: nat, seen: Bucket)
    requires Inv(s) && t < |s.pcs| && s.pcs[t] == EnterCas(gen, ticket, waker, seen) && Exists(s, gen)
    ensures Inv(StepEnterCas(s, t, c, gen, ticket, waker, seen))
  {
    hide Inv;
    Exist(s, t);
    var cell := At(s, gen, ticket);
    if seen != Empty(ticket) && seen != Woken(ticket) {
      PlainKeeps(s, t, ExpandLock(gen, 0, 0), s.wakers, s.rung);
    } else if c.spurious || seen != cell.bucket {
      PlainKeeps(s, t, EnterCas(gen, ticket, waker, cell.bucket), s.wakers, s.rung);
    } else if seen.Empty? {
      EnterWaits(s, t, gen, ticket, waker);
    } else {
      EnterPasses(s, t, gen, ticket, waker);
    }
  }

  /** While a bucket is open, only one task waits on it. */
  lemma {:induction false} NoOther(s: State, t: nat, i: nat, g: nat, r: nat)
    requires Inv(s) && t < |s.pcs| && i < |s.pcs| && i != t && g < |s.gens| && r < |s.gens[g]|
    requires OnPlace(s.gens, s.pcs[t], g, r) && !s.gens[g][r].bucket.Tombstone?
    ensures !OnPlace(s.gens, s.pcs[i], g, r)
  {
    WaitAt(s, t);
    WaitAt(s, i);
    if i < t {
      assert !SameTicket(s.pcs[i], s.pcs[t]);
    } else {
      assert !SameTicket(s.pcs[t], s.pcs[i]);
    }
  }

  lemma {:induction false} AloneWaiters(s: State, t: nat, pc: Pc, g: nat, r: nat, cell: Cell)
    requires Inv(s) && t < |s.pcs| && g < |s.gens| && r < |s.gens[g]|
    requires OnPlace(s.gens, s.pcs[t], g, r) && !s.gens[g][r].bucket.Tombstone?
    requires WaitOk(Set(s.gens, g, r, cell), s.rung, s.pcs[t := pc], pc)
    ensures Waiters(Set(s.gens, g, r, cell), s.rung, s.pcs[t := pc])
  {
    hide Inv, WaitOk;
    forall i | 0 <= i < |s.pcs| && i != t
      ensures !OnPlace(s.gens, s.pcs[i], g, r)
    {
      NoOther(s, t, i, g, r);
    }
    WaitersHold(s);
    SetWaiters(s.gens, s.rung, s.pcs, t, pc, g, r, cell);
  }

  /** A waiter renews its waker. */
  lemma {:induction false} PollWaits(s: State, t: nat, gen: nat, ticket: nat, waker: nat, renewed: nat, seen: Bucket)
    requires Inv(s) && t < |s.pcs| && s.pcs[t] == PollCas(gen, ticket, waker, renewed, seen) && Exists(s, gen)
    requires seen.Waiting? && At(s, gen, ticket).bucket == seen
    ensures Inv(Put(Goto(s, t, Parked(gen, ticket, renewed)), gen, ticket,
             At(s, gen, ticket).(bucket := Waiting(renewed))))
  {
    hide Inv, Waiters, Debt;
    Exist(s, t);
    WaitAt(s, t);
    OpenIsCurrent(s, gen, ticket);
    var pc, cell, r := Parked(gen, ticket, renewed), At(s, gen, ticket).(bucket := Waiting(renewed)),
        ticket % |s.gens[gen]|;
    NewWait(s.gens, s.rung, s.pcs[t := pc], gen, r, cell, pc);
    AloneWaiters(s, t, pc, gen, r, cell);
    NoDebt(s.gens[gen], r, cell, s.pcs[t], pc, gen);
    TicketStays(s, t, pc);
    PutKeeps(s, t, r, cell, pc);
  }

  /** A notified waiter finishes its ticket and opens the bucket's next round. */
  lemma {:induction false} PollPasses(s: State, t: nat, gen: nat, ticket: nat, waker: nat, renewed: nat)
    requires Inv(s) && t < |s.pcs| && s.pcs[t] == PollCas(gen, ticket, waker, renewed, Waking) && Exists(s, gen)
    requires At(s, gen, ticket).bucket == Waking
    ensures var cell := At(s, gen, ticket);
            Inv(Put(Goto(s, t, Idle), gen, ticket, Cell(Empty(ticket + |s.gens[gen]|), cell.done + 1, cell.applied)))
  {
    hide Inv, Waiters, Debt;
    Exist(s, t);
    WaitAt(s, t);
    OpenIsCurrent(s, gen, ticket);
    var was, r := At(s, gen, ticket), ticket % |s.gens[gen]|;
    var cell := Cell(Empty(ticket + |s.gens[gen]|), was.done + 1, was.applied);
    NextRound(r, |s.gens[gen]|, was.done);
    LeavesNoWait(Set(s.gens, gen, r, cell), s.rung, s.pcs[t := Idle], Idle);
    AloneWaiters(s, t, Idle, gen, r, cell);
    NoDebt(s.gens[gen], r, cell, s.pcs[t], Idle, gen);
    TicketStays(s, t, Idle);
    PutKeeps(s, t, r, cell, Idle);
  }

  /** Looking again finds the bucket as a waiter may find it. */
  lemma {:induction false} PollLooks(s: State, t: nat, gen: nat, ticket: nat, waker: nat, renewed: nat)
    requires Inv(s) && t < |s.pcs| && (s.pcs[t].PollLoad? || s.pcs[t].PollCas?) && Exists(s, gen)
    requires s.pcs[t].gen == gen && s.pcs[t].ticket == ticket && s.pcs[t].waker == waker
    ensures Inv(Goto(s, t, PollCas(gen, ticket, waker, renewed, At(s, gen, ticket).bucket)))
  {
    hide Inv;
    WaitAt(s, t);
    var pc := PollCas(gen, ticket, waker, renewed, At(s, gen, ticket).bucket);
    SameWait(s, t, pc);
    hide WaitOk;
    PlainKeeps(s, t, pc, s.wakers, s.rung);
  }

  lemma {:induction false} SameWait(s: State, t: nat, pc: Pc)
    requires t < |s.pcs| && WaitOk(s.gens, s.rung, s.pcs, s.pcs[t]) && Waits(s.pcs[t]) && Waits(pc)
    requires SameTicket(pc, s.pcs[t]) && pc.waker == s.pcs[t].waker
    requires pc.PollCas? ==> Exists(s, pc.gen) && pc.seen == At(s, pc.gen, pc.ticket).bucket
    ensures WaitOk(s.gens, s.rung, s.pcs[t := pc], pc)
  {
    if Ringing(s.pcs, pc.waker) {
      RingingFollows(s.pcs, t, pc, pc.waker);
    }
  }

  lemma {:induction false} PollSeen(s: State, t: nat)
    requires Inv(s) && t < |s.pcs| && s.pcs[t].PollCas?
    ensures s.pcs[t].seen.Waiting? || s.pcs[t].seen.Waking? || s.pcs[t].seen.Tombstone?
  {
    WaitAt(s, t);
  }

  lemma {:induction false} PollCasKeeps(s: State, t: nat, c: Choice, gen: nat, ticket: nat, waker: nat, renewed: nat,
          seen: Bucket)
    requires Inv(s) && t < |s.pcs| && s.pcs[t] == PollCas(gen, ticket, waker, renewed, seen) && Exists(s, gen)
    ensures Inv(StepPollCas(s, t, c, gen, ticket, waker, renewed, seen))
  {
    hide Inv, WaitOk;
    Exist(s, t);
    PollSeen(s, t);
    if seen.Tombstone? {
      LeavesNoWait(s.gens, s.rung, s.pcs[t := ExpandLock(gen, 0, 0)], ExpandLock(gen, 0, 0));
      PlainKeeps(s, t, ExpandLock(gen, 0, 0), s.wakers, s.rung);
    } else if c.spurious || seen != At(s, gen, ticket).bucket {
      PollLooks(s, t, gen, ticket, waker, renewed);
    } else if seen.Waiting? {
      PollWaits(s, t, gen, ticket, waker, renewed, seen);
    } else {
      PollPasses(s, t, gen, ticket, waker, renewed);
    }
  }

  // ----- expand -----

  lemma {:induction false} LockTaken(atom: Atom, newest: nat, pcs: seq<Pc>, t: nat, pc: Pc)
    requires Locking(atom, newest, None, pcs) && t < |pcs| && pc.Sweep? && pc.gen == newest
    ensures Locking(atom, newest, Some(t), pcs[t := pc])
  {
    var pcs' := pcs[t := pc];
    forall i | 0 <= i < |pcs|
      ensures LockOk(atom, newest, Some(t), i, pcs'[i])
    {
      assert LockOk(atom, newest, None, i, pcs[i]);
    }
  }

  lemma {:induction false} DebtSame(pc: Pc, pc': Pc, g: nat, r: nat, cap: nat)
    requires cap > 0 && GenOf(pc) == GenOf(pc') && First(pc) == First(pc') && Last(pc) == Last(pc')
    ensures Debt(pc, g, r, cap) == Debt(pc', g, r, cap)
  {
  }

  lemma {:induction false} ExpandBegins(s: State, t: nat, gen: nat, from: nat, to: nat)
    requires Inv(s) && t < |s.pcs| && s.pcs[t] == ExpandLock(gen, from, to) && s.mutex.None? && s.newest == gen
    ensures Inv(Goto(s, t, Sweep(gen, from, to, 0)).(mutex := Some(t)))
  {
    hide Cells, Past, ClosedUpTo, Counted, Tickets, Waiters, Locking, Debt, WaitOk;
    var pc := Sweep(gen, from, to, 0);
    Exist(s, t);
    LockAt(s, t);
    LockTaken(s.atom, s.newest, s.pcs, t, pc);
    var g := s.gens[s.atom.gen];
    forall r | 0 <= r < |g|
      ensures Debt(pc, s.atom.gen, r, |g|) == Debt(s.pcs[t], s.atom.gen, r, |g|)
    {
      DebtSame(pc, s.pcs[t], s.atom.gen, r, |g|);
    }
    CountFollows(g, g, s.atom, s.pcs, t, pc);
    TicketsFollow(s.atom, s.pcs, t, pc);
    LeavesNoWait(s.gens, s.rung, s.pcs[t := pc], pc);
    WaitersFollow(s.gens, s.rung, s.rung, s.pcs, t, pc);
  }

  lemma {:induction false} ExpandLockKeeps(s: State, t: nat, gen: nat, from: nat, to: nat)
    requires Inv(s) && t < |s.pcs| && s.pcs[t] == ExpandLock(gen, from, to)
    ensures Inv(StepExpandLock(s, t, gen, from, to))
  {
    hide Inv;
    LockAt(s, t);
    if s.mutex.None? {
      if s.newest == gen {
        ExpandBegins(s, t, gen, from, to);
      } else {
        PlainKeeps(s, t, Idle, s.wakers, s.rung);
      }
    }
  }

  /** Closing a bucket tells whoever waits on it. */
  lemma {:induction false} SweepWaiters(s: State, t: nat, next: nat, cell: Cell, pc: Pc)
    requires Inv(s) && t < |s.pcs| && s.pcs[t].Sweep? && s.atom.gen < |s.gens| && next < |s.gens[s.atom.gen]|
    requires cell.bucket.Tombstone? && !Waits(pc)
    requires var b := s.gens[s.atom.gen][next].bucket; b.Waiting? ==> Rings(pc, b.waker)
    ensures Waiters(Set(s.gens, s.atom.gen, next, cell), s.rung, s.pcs[t := pc])
  {
    var g := s.atom.gen;
    var gens', pcs' := Set(s.gens, g, next, cell), s.pcs[t := pc];
    assert forall w :: Rings(pc, w) ==> Rings(pcs'[t], w);
    forall i | 0 <= i < |s.pcs| && i != t && OnPlace(s.gens, s.pcs[i], g, next)
      ensures WaitOk(gens', s.rung, pcs', s.pcs[i])
    {
      WaitAt(s, i);
      if Ringing(s.pcs, s.pcs[i].waker) {
        RingingFollows(s.pcs, t, pc, s.pcs[i].waker);
      }
    }
    hide Inv;
    WaitersHold(s);
    SetWaiters(s.gens, s.rung, s.pcs, t, pc, g, next, cell);
  }

  lemma {:induction false} CloseOne(gen: Generation, next: nat, cell: Cell)
    requires ClosedUpTo(gen, next) && next < |gen| && cell.bucket.Tombstone?
    ensures ClosedUpTo(gen[next := cell], next + 1)
  {
  }

  lemma {:induction false} SweepFacts(s: State, t: nat, gen: nat, from: nat, to: nat, next: nat, pc: Pc)
    requires Inv(s) && t < |s.pcs| && s.pcs[t] == Sweep(gen, from, to, next)
    requires pc == Sweep(gen, from, to, next + 1) || (pc.SweepWake? && pc == SweepWake(gen, from, to, next, pc.waker))
    ensures gen == s.atom.gen && s.mutex == Some(t) && Swept(s.mutex, s.pcs) == next
    ensures Swept(s.mutex, s.pcs[t := pc]) == next + 1
    ensures LockOk(s.atom, s.newest, s.mutex, t, pc) && TicketOk(s.atom, pc)
  {
    LockAt(s, t);
  }

  /** One bucket of the generation is closed. */
  lemma {:induction false} SweepOne(s: State, t: nat, gen: nat, from: nat, to: nat, next: nat, pc: Pc, cell: Cell)
    requires Inv(s) && t < |s.pcs| && s.pcs[t] == Sweep(gen, from, to, next)
    requires gen < |s.gens| && next < |s.gens[gen]| && cell == s.gens[gen][next].(bucket := Tombstone)
    requires var b := s.gens[gen][next].bucket;
             pc == if b.Waiting? then SweepWake(gen, from, to, next, b.waker) else Sweep(gen, from, to, next + 1)
    ensures Inv(s.(gens := Set(s.gens, gen, next, cell), pcs := s.pcs[t := pc]))
  {
    hide Cells, Past, ClosedUpTo, Counted, Tickets, Waiters, Locking, Swept, Debt, WaitOk, LockOk, TicketOk;
    SweepFacts(s, t, gen, from, to, next, pc);
    SetCells(s.gens, gen, next, cell);
    SetPast(s.gens, gen, next, cell);
    LockFollows(s.atom, s.atom, s.newest, s.mutex, s.pcs, t, pc);
    CloseOne(s.gens[gen], next, cell);
    var g := s.gens[gen];
    forall r | 0 <= r < |g|
      ensures Debt(pc, gen, r, |g|) == Debt(s.pcs[t], gen, r, |g|)
    {
      DebtSame(pc, s.pcs[t], gen, r, |g|);
    }
    CountFollows(g, g[next := cell], s.atom, s.pcs, t, pc);
    TicketsFollow(s.atom, s.pcs, t, pc);
    SweepWaiters(s, t, next, cell, pc);
  }

  lemma {:induction false} PublishPast(gens: seq<Generation>, gen: Generation)
    requires Past(gens) && |gens| > 0 && ClosedUpTo(gens[|gens| - 1], |gens[|gens| - 1]|)
    ensures Past(gens + [gen])
  {
    var gens' := gens + [gen];
    forall h | 0 <= h < |gens'| - 1
      ensures Closed(gens'[h])
    {
      if h < |gens| - 1 {
        assert Closed(gens[h]);
      }
    }
  }

  lemma {:induction false} PublishCells(gens: seq<Generation>, cap: nat)
    requires Cells(gens)
    ensures Cells(gens + [NewGeneration(cap)])
  {
    var gens' := gens + [NewGeneration(cap)];
    assert GenOk(NewGeneration(cap));
    forall h | 0 <= h < |gens'|
      ensures GenOk(gens'[h])
    {
      if h < |gens| {
        assert GenOk(gens[h]);
      }
    }
  }

  lemma {:induction false} PublishCounted(atom: Atom, pcs: seq<Pc>, cap: nat, atom': Atom)
    requires Tickets(atom, pcs) && cap > 0 && atom' == Atom(atom.gen + 1, 0, 0)
    ensures Counted(NewGeneration(cap), atom', pcs)
  {
    forall i | 0 <= i < |pcs|
      ensures GenOf(pcs[i]) != Some(atom'.gen)
    {
      assert TicketOk(atom, pcs[i]);
    }
    var gen := NewGeneration(cap);
    forall r | 0 <= r < |gen|
      ensures CountedAt(gen, atom', pcs, r)
    {
      PendingNone(pcs, atom'.gen, r, cap);
    }
  }

  lemma {:induction false} PublishTickets(atom: Atom, pcs: seq<Pc>, t: nat, pc: Pc)
    requires Tickets(atom, pcs) && t < |pcs| && GenOf(pc) == Some(atom.gen) && !HasTicket(pc)
    ensures Tickets(Atom(atom.gen + 1, 0, 0), pcs[t := pc])
  {
    var atom', pcs' := Atom(atom.gen + 1, 0, 0), pcs[t := pc];
    TicketsFollow(atom, pcs, t, pc);
    forall i | 0 <= i < |pcs'|
      ensures TicketOk(atom', pcs'[i])
    {
      assert TicketOk(atom, pcs'[i]);
    }
  }

  lemma {:induction false} PublishLock(atom: Atom, newest: nat, pcs: seq<Pc>, t: nat, pc: Pc)
    requires Locking(atom, newest, Some(t), pcs) && t < |pcs| && pc == Publish(newest) && atom.gen == newest
    ensures Locking(Atom(atom.gen + 1, 0, 0), newest, Some(t), pcs[t := pc])
  {
    var pcs' := pcs[t := pc];
    forall i | 0 <= i < |pcs|
      ensures LockOk(Atom(atom.gen + 1, 0, 0), newest, Some(t), i, pcs'[i])
    {
      assert LockOk(atom, newest, Some(t), i, pcs[i]);
    }
  }

  lemma {:induction false} PublishWaiters(gens: seq<Generation>, gen: Generation, rung: set<nat>, pcs: seq<Pc>)
    requires Waiters(gens, rung, pcs)
    ensures Waiters(gens + [gen], rung, pcs)
  {
    forall i | 0 <= i < |pcs|
      ensures WaitOk(gens + [gen], rung, pcs, pcs[i])
    {
      assert WaitOk(gens, rung, pcs, pcs[i]);
    }
  }

  lemma {:induction false} SweepLock(s: State, t: nat)
    requires Inv(s) && t < |s.pcs| && s.pcs[t].Sweep?
    ensures s.mutex == Some(t) && s.pcs[t].gen == s.newest == s.atom.gen && Swept(s.mutex, s.pcs) == s.pcs[t].next
    ensures Swept(s.mutex, s.pcs[t := Publish(s.atom.gen)]) == 0
  {
    LockAt(s, t);
  }

  /** With every bucket closed the next generation is opened. */
  lemma {:induction false} PublishKeeps(s: State, t: nat, gen: nat, from: nat, to: nat, next: nat)
    requires Inv(s) && t < |s.pcs| && s.pcs[t] == Sweep(gen, from, to, next) && Exists(s, gen) && next >= |s.gens[gen]|
    ensures Inv(Goto(s, t, Publish(gen)).(gens := s.gens + [NewGeneration(2 * |s.gens[gen]|)],
             atom := Atom(|s.gens|, 0, 0)))
  {
    hide Cells, Past, Counted, Tickets, Waiters, Locking, Swept, Debt, WaitOk, LockOk;
    var pc, cap := Publish(gen), 2 * |s.gens[gen]|;
    SweepLock(s, t);
    PublishPast(s.gens, NewGeneration(cap));
    PublishCells(s.gens, cap);
    PublishLock(s.atom, s.newest, s.pcs, t, pc);
    TicketsFollow(s.atom, s.pcs, t, pc);
    PublishCounted(s.atom, s.pcs[t := pc], cap, Atom(|s.gens|, 0, 0));
    PublishTickets(s.atom, s.pcs, t, pc);
    LeavesNoWait(s.gens, s.rung, s.pcs[t := pc], pc);
    WaitersFollow(s.gens, s.rung, s.rung, s.pcs, t, pc);
    PublishWaiters(s.gens, NewGeneration(cap), s.rung, s.pcs[t := pc]);
  }

  lemma {:induction false} SweepKeeps(s: State, t: nat, gen: nat, from: nat, to: nat, next: nat)
    requires Inv(s) && t < |s.pcs| && s.pcs[t] == Sweep(gen, from, to, next) && Exists(s, gen)
    ensures Inv(StepSweep(s, t, gen, from, to, next))
  {
    hide Inv;
    if next < |s.gens[gen]| {
      var cell := s.gens[gen][next];
      InRange(next, |s.gens[gen]|);
      SweepOne(s, t, gen, from, to, next,
               if cell.bucket.Waiting? then SweepWake(gen, from, to, next, cell.bucket.waker)
               else Sweep(gen, from, to, next + 1), cell.(bucket := Tombstone));
    } else {
      PublishKeeps(s, t, gen, from, to, next);
    }
  }

  lemma {:induction false} SweepWakeKeeps(s: State, t: nat, gen: nat, from: nat, to: nat, next: nat, waker: nat)
    requires Inv(s) && t < |s.pcs| && s.pcs[t] == SweepWake(gen, from, to, next, waker)
    ensures Inv(Goto(s, t, Sweep(gen, from, to, next + 1)).(rung := s.rung + {waker}))
  {
    hide Inv, Debt, WaitOk;
    var pc := Sweep(gen, from, to, next + 1);
    Exist(s, t);
    LockAt(s, t);
    SweptFollows(s.mutex, s.pcs, t, pc);
    LeavesNoWait(s.gens, s.rung + {waker}, s.pcs[t := pc], pc);
    var g := s.gens[s.atom.gen];
    forall r | 0 <= r < |g|
      ensures Debt(pc, s.atom.gen, r, |g|) == Debt(s.pcs[t], s.atom.gen, r, |g|)
    {
      DebtSame(pc, s.pcs[t], s.atom.gen, r, |g|);
    }
    TurnKeeps(s, t, pc, s.wakers, s.rung + {waker});
  }

  lemma {:induction false} LockReleased(atom: Atom, newest: nat, pcs: seq<Pc>, t: nat)
    requires Locking(atom, newest, Some(t), pcs) && t < |pcs| && pcs[t] == Publish(newest)
    ensures Locking(atom, newest + 1, None, pcs[t := Idle])
  {
    assert LockOk(atom, newest, Some(t), t, pcs[t]);
    var pcs' := pcs[t := Idle];
    forall i | 0 <= i < |pcs|
      ensures LockOk(atom, newest + 1, None, i, pcs'[i])
    {
      assert LockOk(atom, newest, Some(t), i, pcs[i]);
    }
  }

  lemma {:induction false} ExpandEnds(s: State, t: nat, gen: nat)
    requires Inv(s) && t < |s.pcs| && s.pcs[t] == Publish(gen)
    ensures Inv(Goto(s, t, Idle).(newest := gen + 1, mutex := None))
  {
    hide Cells, Past, ClosedUpTo, Counted, Tickets, Waiters, Locking, Debt, WaitOk;
    Exist(s, t);
    LockAt(s, t);
    LockReleased(s.atom, s.newest, s.pcs, t);
    var g := s.gens[s.atom.gen];
    forall r | 0 <= r < |g|
      ensures Debt(Idle, s.atom.gen, r, |g|) == Debt(s.pcs[t], s.atom.gen, r, |g|)
    {
      PublishDebt(gen, s.atom.gen, r, |g|);
    }
    CountFollows(g, g, s.atom, s.pcs, t, Idle);
    TicketsFollow(s.atom, s.pcs, t, Idle);
    LeavesNoWait(s.gens, s.rung, s.pcs[t := Idle], Idle);
    WaitersFollow(s.gens, s.rung, s.rung, s.pcs, t, Idle);
  }

  lemma {:induction false} PublishDebt(gen: nat, g: nat, r: nat, cap: nat)
    requires cap > 0
    ensures Debt(Publish(gen), g, r, cap) == 0 && Debt(Idle, g, r, cap) == 0
  {
  }

  // ----- every step, every run -----

  lemma {:induction false} NotifyWakeKeeps(s: State, t: nat, gen: nat, from: nat, to: nat, waker: nat)
    requires Inv(s) && t < |s.pcs| && s.pcs[t] == NotifyWake(gen, from, to, waker)
    ensures Inv(Goto(s, t, NextTicket(gen, from + 1, to)).(rung := s.rung + {waker}))
  {
    hide Inv, WaitOk;
    var pc := NextTicket(gen, from + 1, to);
    Exist(s, t);
    LeavesNoWait(s.gens, s.rung + {waker}, s.pcs[t := pc], pc);
    PlainKeeps(s, t, pc, s.wakers, s.rung + {waker});
  }

  lemma {:induction false} NotifyKeeps(s: State, t: nat, c: Choice)
    requires Inv(s) && t < |s.pcs|
    requires var pc := s.pcs[t]; pc.Idle? || pc.NotifyTry? || pc.NotifyLoad? || pc.NotifyCas? || pc.NotifyWake?
    ensures Inv(Step(s, t, c))
  {
    hide Inv, WaitOk, StepNotifyTry, StepNotifyCas;
    Exist(s, t);
    match s.pcs[t]
    case Idle =>
      var pc := if c.op.StartWait? then EnterTry(s.atom) else NotifyTry(c.op.add, s.atom);
      LeavesNoWait(s.gens, s.rung, s.pcs[t := pc], pc);
      PlainKeeps(s, t, pc, s.wakers, s.rung);
    case NotifyTry(add, snap) => NotifyTryKeeps(s, t, c, add, snap);
    case NotifyLoad(gen, from, to) =>
      var pc := NotifyCas(gen, from, to, At(s, gen, from).bucket);
      LeavesNoWait(s.gens, s.rung, s.pcs[t := pc], pc);
      PlainKeeps(s, t, pc, s.wakers, s.rung);
    case NotifyCas(gen, from, to, seen) => NotifyCasKeeps(s, t, c, gen, from, to, seen);
    case NotifyWake(gen, from, to, waker) => NotifyWakeKeeps(s, t, gen, from, to, waker);
  }

  lemma {:induction false} ExpandKeeps(s: State, t: nat, c: Choice)
    requires Inv(s) && t < |s.pcs|
    requires var pc := s.pcs[t]; pc.ExpandLock? || pc.Sweep? || pc.SweepWake? || pc.Publish?
    ensures Inv(Step(s, t, c))
  {
    hide Inv, StepExpandLock, StepSweep;
    Exist(s, t);
    match s.pcs[t]
    case ExpandLock(gen, from, to) => ExpandLockKeeps(s, t, gen, from, to);
    case Sweep(gen, from, to, next) => SweepKeeps(s, t, gen, from, to, next);
    case SweepWake(gen, from, to, next, waker) => SweepWakeKeeps(s, t, gen, from, to, next, waker);
    case Publish(gen) => ExpandEnds(s, t, gen);
  }

  lemma {:induction false} CheckKeeps(s: State, t: nat, c: Choice, gen: nat, ticket: nat, waker: nat)
    requires Inv(s) && t < |s.pcs| && s.pcs[t] == EnterCheck(gen, ticket, waker)
    ensures Inv(Goto(s, t, if c.holds then Parked(gen, ticket, waker) else NotifyTry(1, s.atom)))
  {
    hide Inv, WaitOk;
    Exist(s, t);
    WaitAt(s, t);
    if c.holds {
      SameWait(s, t, Parked(gen, ticket, waker));
      PlainKeeps(s, t, Parked(gen, ticket, waker), s.wakers, s.rung);
    } else {
      LeavesNoWait(s.gens, s.rung, s.pcs[t := NotifyTry(1, s.atom)], NotifyTry(1, s.atom));
      PlainKeeps(s, t, NotifyTry(1, s.atom), s.wakers, s.rung);
    }
  }

  lemma {:induction false} ParkedKeeps(s: State, t: nat, gen: nat, ticket: nat, waker: nat)
    requires Inv(s) && t < |s.pcs| && s.pcs[t] == Parked(gen, ticket, waker)
    ensures Inv(Goto(s, t, PollLoad(gen, ticket, waker, s.wakers)).(wakers := s.wakers + 1))
  {
    hide Inv, WaitOk;
    Exist(s, t);
    WaitAt(s, t);
    SameWait(s, t, PollLoad(gen, ticket, waker, s.wakers));
    PlainKeeps(s, t, PollLoad(gen, ticket, waker, s.wakers), s.wakers + 1, s.rung);
  }

  lemma {:induction false} WaitKeeps(s: State, t: nat, c: Choice)
    requires Inv(s) && t < |s.pcs|
    requires var pc := s.pcs[t]; pc.EnterTry? || HasTicket(pc)
    ensures Inv(Step(s, t, c))
  {
    hide Inv, StepEnterTry, StepEnterCas, StepPollCas;
    Exist(s, t);
    match s.pcs[t]
    case EnterTry(snap) => EnterTryKeeps(s, t, c, snap);
    case EnterCas(gen, ticket, waker, seen) => EnterCasKeeps(s, t, c, gen, ticket, waker, seen);
    case EnterCheck(gen, ticket, waker) => CheckKeeps(s, t, c, gen, ticket, waker);
    case Parked(gen, ticket, waker) => ParkedKeeps(s, t, gen, ticket, waker);
    case PollLoad(gen, ticket, waker, renewed) => PollLooks(s, t, gen, ticket, waker, renewed);
    case PollCas(gen, ticket, waker, renewed, seen) => PollCasKeeps(s, t, c, gen, ticket, waker, renewed, seen);
  }

  lemma {:induction false} StepKeeps(s: State, t: nat, c: Choice)
    requires Inv(s) && t < |s.pcs|
    ensures Inv(Step(s, t, c))
  {
    hide Inv, Step;
    Exist(s, t);
    var pc := s.pcs[t];
    if pc.ExpandLock? || pc.Sweep? || pc.SweepWake? || pc.Publish? {
      ExpandKeeps(s, t, c);
    } else if pc.EnterTry? || HasTicket(pc) {
      WaitKeeps(s, t, c);
    } else {
      NotifyKeeps(s, t, c);
    }
  }

  lemma {:induction false} InitKeeps(cap: nat, tasks: nat)
    requires cap > 0
    ensures Inv(Init(cap, tasks))
  {
    var s := Init(cap, tasks);
    PublishCells([], cap);
    assert [] + [NewGeneration(cap)] == s.gens;
    forall r | 0 <= r < cap
      ensures CountedAt(s.gens[0], s.atom, s.pcs, r)
    {
      PendingNone(s.pcs, 0, r, cap);
    }
  }

  /** Every reachable state: any capacity, any number of tasks, any interleaving. */
  lemma {:induction false} RunKeeps(cap: nat, tasks: nat, schedule: seq<(nat, Choice)>)
    requires cap > 0
    ensures Inv(Run(Init(cap, tasks), schedule))
    decreases |schedule|
  {
    hide Inv;
    if schedule == [] {
      InitKeeps(cap, tasks);
    } else {
      var last := |schedule| - 1;
      RunKeeps(cap, tasks, schedule[..last]);
      var p := Run(Init(cap, tasks), schedule[..last]);
      var (t, c) := schedule[last];
      if t < |p.pcs| {
        StepKeeps(p, t, c);
      }
    }
  }

  // ----- where a waker is -----

  /** The waker a task carries itself: to its bucket, or from a bucket to be invoked. */
  function Carried(pc: Pc): Option<nat>
  {
    match pc
    case EnterCas(_, _, waker, _) => Some(waker)
    case PollLoad(_, _, _, renewed) => Some(renewed)
    case PollCas(_, _, _, renewed, _) => Some(renewed)
    case NotifyWake(_, _, _, waker) => Some(waker)
    case SweepWake(_, _, _, _, waker) => Some(waker)
    case _ => None
  }

  predicate InBucket(gens: seq<Generation>, g: nat, r: nat, waker: nat)
  {
    g < |gens| && r < |gens[g]| && gens[g][r].bucket == Waiting(waker)
  }

  /** A waker in a bucket has not been invoked and is in no other bucket. */
  ghost predicate BucketsOwn(gens: seq<Generation>, wakers: nat, rung: set<nat>)
  {
    && (forall g: nat, r: nat, w: nat :: InBucket(gens, g, r, w) ==> w < wakers && w !in rung)
    && forall g: nat, r: nat, h: nat, q: nat, w: nat ::
         InBucket(gens, g, r, w) && InBucket(gens, h, q, w) ==> g == h && r == q
  }

  /** A waker a task carries has not been invoked and is in no bucket. */
  ghost predicate CarriedOwn(gens: seq<Generation>, wakers: nat, rung: set<nat>, pc: Pc)
  {
    Carried(pc).Some? ==>
      var w := Carried(pc).value;
      w < wakers && w !in rung && forall g: nat, r: nat :: !InBucket(gens, g, r, w)
  }

  ghost predicate TasksOwn(gens: seq<Generation>, wakers: nat, rung: set<nat>, pcs: seq<Pc>)
  {
    && (forall i :: 0 <= i < |pcs| ==> CarriedOwn(gens, wakers, rung, pcs[i]))
    && forall i, j :: 0 <= i < j < |pcs| && Carried(pcs[i]).Some? ==> Carried(pcs[j]) != Carried(pcs[i])
  }

  /** Every waker that has not been used up is in one place only. */
  ghost predicate Own(s: State)
  {
    && (forall w :: w in s.rung ==> w < s.wakers)
    && BucketsOwn(s.gens, s.wakers, s.rung)
    && TasksOwn(s.gens, s.wakers, s.rung, s.pcs)
  }

  /** The buckets hold no waker they did not hold before. */
  ghost predicate Fewer(gens: seq<Generation>, gens': seq<Generation>)
  {
    forall g: nat, r: nat, w: nat :: InBucket(gens', g, r, w) ==> InBucket(gens, g, r, w)
  }

  /** The task carries what it carried, or nothing, or a fresh clone. */
  lemma {:induction false} CarryOwn(s: State, s': State, t: nat)
    requires Own(s) && t < |s.pcs| && |s'.pcs| == |s.pcs| && s'.pcs == s.pcs[t := s'.pcs[t]] && s'.rung == s.rung
    requires Fewer(s.gens, s'.gens) && s.wakers <= s'.wakers
    requires var pc := s'.pcs[t];
             Carried(pc).None? || Carried(pc) == Carried(s.pcs[t])
                 || (Carried(pc) == Some(s.wakers) && s.wakers < s'.wakers)
    ensures Own(s')
  {
    forall i | 0 <= i < |s'.pcs|
      ensures CarriedOwn(s'.gens, s'.wakers, s'.rung, s'.pcs[i])
    {
      assert CarriedOwn(s.gens, s.wakers, s.rung, s.pcs[i]);
    }
    forall i | 0 <= i < |s.pcs|
      ensures Carried(s.pcs[i]) != Some(s.wakers)
    {
      assert CarriedOwn(s.gens, s.wakers, s.rung, s.pcs[i]);
    }
  }

  /** The task invokes the waker it carries. */
  lemma {:induction false} RingOwn(s: State, s': State, t: nat)
    requires Own(s) && t < |s.pcs| && |s'.pcs| == |s.pcs| && s'.pcs == s.pcs[t := s'.pcs[t]]
    requires Carried(s.pcs[t]).Some? && Carried(s'.pcs[t]).None? && s'.rung == s.rung + {Carried(s.pcs[t]).value}
    requires s'.gens == s.gens && s'.wakers == s.wakers
    ensures Own(s')
  {
    assert CarriedOwn(s.gens, s.wakers, s.rung, s.pcs[t]);
    forall i | 0 <= i < |s'.pcs|
      ensures CarriedOwn(s'.gens, s'.wakers, s'.rung, s'.pcs[i])
    {
      assert CarriedOwn(s.gens, s.wakers, s.rung, s.pcs[i]);
    }
  }

  /** The task takes a waker out of a bucket. */
  lemma {:induction false} TakeOwn(s: State, s': State, t: nat, g: nat, r: nat, waker: nat)
    requires Own(s) && t < |s.pcs| && |s'.pcs| == |s.pcs| && s'.pcs == s.pcs[t := s'.pcs[t]]
    requires InBucket(s.gens, g, r, waker) && !InBucket(s'.gens, g, r, waker) && Fewer(s.gens, s'.gens)
    requires Carried(s'.pcs[t]) == Some(waker) && s'.rung == s.rung && s'.wakers == s.wakers
    ensures Own(s')
  {
    forall i | 0 <= i < |s'.pcs|
      ensures CarriedOwn(s'.gens, s'.wakers, s'.rung, s'.pcs[i])
      ensures Carried(s.pcs[i]) != Some(waker)
    {
      assert CarriedOwn(s.gens, s.wakers, s.rung, s.pcs[i]);
    }
  }

  /** The task leaves the waker it carries in a bucket. */
  lemma {:induction false} LeaveOwn(s: State, s': State, t: nat, g: nat, r: nat, waker: nat)
    requires Own(s) && t < |s.pcs| && |s'.pcs| == |s.pcs| && s'.pcs == s.pcs[t := s'.pcs[t]]
    requires Carried(s.pcs[t]) == Some(waker) && Carried(s'.pcs[t]).None? && s'.rung == s.rung && s'.wakers == s.wakers
    requires forall h: nat, q: nat, w: nat ::
               InBucket(s'.gens, h, q, w) ==>
                 if h == g && q == r then w == waker else InBucket(s.gens, h, q, w)
    ensures Own(s')
  {
    assert CarriedOwn(s.gens, s.wakers, s.rung, s.pcs[t]);
    forall i | 0 <= i < |s'.pcs|
      ensures CarriedOwn(s'.gens, s'.wakers, s'.rung, s'.pcs[i])
    {
      assert CarriedOwn(s.gens, s.wakers, s.rung, s.pcs[i]);
    }
  }

  lemma {:induction false} PutFewer(s: State, gen: nat, ticket: nat, cell: Cell)
    requires Exists(s, gen) && (cell.bucket.Waiting? ==> cell.bucket == At(s, gen, ticket).bucket)
    ensures Fewer(s.gens, Put(s, gen, ticket, cell).gens)
  {
  }

  lemma {:induction false} NotifyOwn(s: State, t: nat, c: Choice)
    requires Own(s) && t < |s.pcs|
    requires s.pcs[t].NotifyTry? || s.pcs[t].NotifyLoad? || s.pcs[t].NotifyCas? || s.pcs[t].NotifyWake?
    ensures Own(Step(s, t, c))
  {
    hide Own, Fewer;
    SameFewer(s.gens);
    match s.pcs[t]
    case NotifyCas(gen, from, to, seen) =>
      NotifyCasOwn(s, t, c, gen, from, to, seen);
    case NotifyWake(gen, _, _, _) =>
      if Exists(s, gen) {
        RingOwn(s, Step(s, t, c), t);
      } else {
        CarryOwn(s, Step(s, t, c), t);
      }
    case NotifyTry(_, _) | NotifyLoad(_, _, _) =>
      CarryOwn(s, Step(s, t, c), t);
  }

  lemma {:induction false} SameFewer(gens: seq<Generation>)
    ensures Fewer(gens, gens)
  {
  }

  lemma {:induction false} NotifyCasOwn(s: State, t: nat, c: Choice, gen: nat, from: nat, to: nat, seen: Bucket)
    requires Own(s) && t < |s.pcs| && s.pcs[t] == NotifyCas(gen, from, to, seen)
    ensures Own(Step(s, t, c))
  {
    hide Own, Fewer;
    SameFewer(s.gens);
    if Exists(s, gen) && !c.spurious && seen == At(s, gen, from).bucket && (seen.Waiting? || seen == Empty(from)) {
      var cell := At(s, gen, from);
      var served := Cell(if seen.Waiting? then Waking else Woken(from), cell.done, cell.applied + 1);
      PutFewer(s, gen, from, served);
      if seen.Waiting? {
        TakeOwn(s, Step(s, t, c), t, gen, from % |s.gens[gen]|, seen.waker);
      } else {
        CarryOwn(s, Step(s, t, c), t);
      }
    } else {
      CarryOwn(s, Step(s, t, c), t);
    }
  }

  lemma {:induction false} OpenFewer(gens: seq<Generation>, cap: nat)
    ensures Fewer(gens, gens + [NewGeneration(cap)])
  {
  }

  lemma {:induction false} SweepOwn(s: State, t: nat, c: Choice, gen: nat, from: nat, to: nat, next: nat)
    requires Own(s) && t < |s.pcs| && s.pcs[t] == Sweep(gen, from, to, next)
    ensures Own(Step(s, t, c))
  {
    hide Own, Fewer;
    SameFewer(s.gens);
    if Exists(s, gen) && next < |s.gens[gen]| {
      InRange(next, |s.gens[gen]|);
      var cell := s.gens[gen][next];
      PutFewer(s, gen, next, cell.(bucket := Tombstone));
      if cell.bucket.Waiting? {
        TakeOwn(s, Step(s, t, c), t, gen, next, cell.bucket.waker);
      } else {
        CarryOwn(s, Step(s, t, c), t);
      }
    } else if Exists(s, gen) {
      OpenFewer(s.gens, 2 * |s.gens[gen]|);
      CarryOwn(s, Step(s, t, c), t);
    } else {
      CarryOwn(s, Step(s, t, c), t);
    }
  }

  lemma {:induction false} ExpandOwn(s: State, t: nat, c: Choice)
    requires Own(s) && t < |s.pcs|
    requires s.pcs[t].ExpandLock? || s.pcs[t].Sweep? || s.pcs[t].SweepWake? || s.pcs[t].Publish?
    ensures Own(Step(s, t, c))
  {
    hide Own, Fewer;
    SameFewer(s.gens);
    match s.pcs[t]
    case Sweep(gen, from, to, next) => SweepOwn(s, t, c, gen, from, to, next);
    case SweepWake(gen, _, _, _, _) =>
      if Exists(s, gen) {
        RingOwn(s, Step(s, t, c), t);
      } else {
        CarryOwn(s, Step(s, t, c), t);
      }
    case ExpandLock(_, _, _) | Publish(_) =>
      assert s.pcs == s.pcs[t := s.pcs[t]];
      CarryOwn(s, Step(s, t, c), t);
  }

  lemma {:induction false} EnterCasOwn(s: State, t: nat, c: Choice, gen: nat, ticket: nat, waker: nat, seen: Bucket)
    requires Own(s) && t < |s.pcs| && s.pcs[t] == EnterCas(gen, ticket, waker, seen)
    ensures Own(Step(s, t, c))
  {
    hide Own, Fewer;
    SameFewer(s.gens);
    if Exists(s, gen) && !c.spurious && seen == At(s, gen, ticket).bucket
        && (seen == Empty(ticket) || seen == Woken(ticket)) {
      var cell := At(s, gen, ticket);
      if seen.Empty? {
        LeaveOwn(s, Step(s, t, c), t, gen, ticket % |s.gens[gen]|, waker);
      } else {
        PutFewer(s, gen, ticket, Cell(Empty(ticket + |s.gens[gen]|), cell.done + 1, cell.applied));
        CarryOwn(s, Step(s, t, c), t);
      }
    } else {
      CarryOwn(s, Step(s, t, c), t);
    }
  }

  lemma {:induction false} PollCasOwn(s: State, t: nat, c: Choice, gen: nat, ticket: nat, waker: nat, renewed: nat,
          seen: Bucket)
    requires Own(s) && t < |s.pcs| && s.pcs[t] == PollCas(gen, ticket, waker, renewed, seen)
    ensures Own(Step(s, t, c))
  {
    hide Own, Fewer;
    SameFewer(s.gens);
    if Exists(s, gen) && !c.spurious && seen == At(s, gen, ticket).bucket && (seen.Waiting? || seen.Waking?) {
      var cell := At(s, gen, ticket);
      if seen.Waiting? {
        LeaveOwn(s, Step(s, t, c), t, gen, ticket % |s.gens[gen]|, renewed);
      } else {
        PutFewer(s, gen, ticket, Cell(Empty(ticket + |s.gens[gen]|), cell.done + 1, cell.applied));
        CarryOwn(s, Step(s, t, c), t);
      }
    } else {
      CarryOwn(s, Step(s, t, c), t);
    }
  }

  lemma {:induction false} StepOwn(s: State, t: nat, c: Choice)
    requires Own(s) && t < |s.pcs|
    ensures Own(Step(s, t, c))
  {
    hide Own, Fewer;
    SameFewer(s.gens);
    match s.pcs[t]
    case NotifyTry(_, _) | NotifyLoad(_, _, _) | NotifyCas(_, _, _, _) | NotifyWake(_, _, _, _) => NotifyOwn(s, t, c);
    case ExpandLock(_, _, _) | Sweep(_, _, _, _) | SweepWake(_, _, _, _, _) | Publish(_) => ExpandOwn(s, t, c);
    case EnterCas(gen, ticket, waker, seen) => EnterCasOwn(s, t, c, gen, ticket, waker, seen);
    case PollCas(gen, ticket, waker, renewed, seen) => PollCasOwn(s, t, c, gen, ticket, waker, renewed, seen);
    case Crashed => assert Step(s, t, c) == s;
    case _ => CarryOwn(s, Step(s, t, c), t);
  }

  lemma {:induction false} RunOwn(cap: nat, tasks: nat, schedule: seq<(nat, Choice)>)
    ensures Own(Run(Init(cap, tasks), schedule))
    decreases |schedule|
  {
    hide Own, Step;
    if schedule == [] {
      InitOwn(cap, tasks);
    } else {
      var last := |schedule| - 1;
      RunOwn(cap, tasks, schedule[..last]);
      var p := Run(Init(cap, tasks), schedule[..last]);
      var (t, c) := schedule[last];
      if t < |p.pcs| {
        StepOwn(p, t, c);
      }
    }
  }

  lemma {:induction false} InitOwn(cap: nat, tasks: nat)
    ensures Own(Init(cap, tasks))
  {
  }

  // ----- what the queue promises -----

  /** In the current generation every place has received exactly the notifications of
    its tickets, but for those some task still owes. */
  lemma {:induction false} NothingLost(cap: nat, tasks: nat, schedule: seq<(nat, Choice)>, r: nat)
    requires cap > 0
    requires var s := Run(Init(cap, tasks), schedule); Exists(s, s.atom.gen) && r < |s.gens[s.atom.gen]|
    ensures var s := Run(Init(cap, tasks), schedule);
            var gen := s.gens[s.atom.gen];
            gen[r].applied + Pending(s.pcs, s.atom.gen, r, |gen|) == Count(0, s.atom.notifies, r, |gen|)
  {
    hide Run, Init;
    RunKeeps(cap, tasks, schedule);
    var s := Run(Init(cap, tasks), schedule);
    assert CountedAt(s.gens[s.atom.gen], s.atom, s.pcs, r);
  }

  /** Notifications a place has received are its finished tickets, and one more exactly
    while the bucket is Woken or Waking. */
  lemma {:induction false} PlaceIsExact(cap: nat, tasks: nat, schedule: seq<(nat, Choice)>, gen: nat, r: nat)
    requires cap > 0
    requires var s := Run(Init(cap, tasks), schedule);
             gen < |s.gens| && r < |s.gens[gen]| && !s.gens[gen][r].bucket.Tombstone?
    ensures var s := Run(Init(cap, tasks), schedule);
            var cell := s.gens[gen][r];
            && gen == s.atom.gen
            && cell.applied == cell.done + (if cell.bucket.Woken? || cell.bucket.Waking? then 1 else 0)
  {
    hide Run, Init;
    RunKeeps(cap, tasks, schedule);
    CellAt(Run(Init(cap, tasks), schedule), gen, r);
  }

  /** No two tasks hold the same ticket. */
  lemma {:induction false} TicketsUnique(cap: nat, tasks: nat, schedule: seq<(nat, Choice)>, i: nat, j: nat)
    requires cap > 0
    requires var s := Run(Init(cap, tasks), schedule); i < j < |s.pcs|
    ensures var s := Run(Init(cap, tasks), schedule); !SameTicket(s.pcs[i], s.pcs[j])
  {
    hide Run, Init;
    RunKeeps(cap, tasks, schedule);
  }

  /** The code that must not be reached is not: a waiter finds its bucket Waiting, Waking
    or closed. */
  lemma {:induction false} NeverUnreachable(cap: nat, tasks: nat, schedule: seq<(nat, Choice)>, i: nat)
    requires cap > 0 && i < |Run(Init(cap, tasks), schedule).pcs|
    ensures !Run(Init(cap, tasks), schedule).pcs[i].Crashed?
  {
    hide Run, Init;
    RunKeeps(cap, tasks, schedule);
    Exist(Run(Init(cap, tasks), schedule), i);
  }

  predicate ClosedAt(s: State, gen: nat, r: nat)
  {
    gen < |s.gens| && r < |s.gens[gen]| && s.gens[gen][r].bucket.Tombstone?
  }

  /** A closed bucket stays closed, however the run goes on. */
  lemma {:induction false} TombstoneStays(cap: nat, tasks: nat, schedule: seq<(nat, Choice)>,
        more: seq<(nat, Choice)>, gen: nat, r: nat)
    requires ClosedAt(Run(Init(cap, tasks), schedule), gen, r)
    ensures ClosedAt(Run(Init(cap, tasks), schedule + more), gen, r)
    decreases |more|
  {
    hide Step, ClosedAt;
    if more == [] {
      assert schedule + more == schedule;
    } else {
      var last := |more| - 1;
      TombstoneStays(cap, tasks, schedule, more[..last], gen, r);
      var whole := schedule + more;
      assert whole[..|whole| - 1] == schedule + more[..last];
      var p := Run(Init(cap, tasks), schedule + more[..last]);
      var (t, c) := more[last];
      if t < |p.pcs| {
        StepTombstone(p, t, c, gen, r);
      }
    }
  }

  lemma {:induction false} StepTombstone(s: State, t: nat, c: Choice, gen: nat, r: nat)
    requires t < |s.pcs| && ClosedAt(s, gen, r)
    ensures ClosedAt(Step(s, t, c), gen, r)
  {
  }

  /** A notifier has taken the waker out of its bucket and is about to invoke it. */
  predicate Notified(pcs: seq<Pc>, waker: nat)
  {
    exists k :: 0 <= k < |pcs| && pcs[k].NotifyWake? && pcs[k].waker == waker
  }

  /** Every task that waits on a bucket of the generation has had its waker invoked, but
    for those that a notifier is about to wake. */
  predicate Told(s: State, gen: nat)
  {
    forall i :: 0 <= i < |s.pcs| && Waits(s.pcs[i]) && s.pcs[i].gen == gen ==>
      s.pcs[i].waker in s.rung || Notified(s.pcs, s.pcs[i].waker)
  }

  /** Whoever returns from closing a generation leaves all of it closed and everybody
    that waited there told. */
  lemma {:induction false} ExpandLeavesClosed(cap: nat, tasks: nat, schedule: seq<(nat, Choice)>, t: nat, c: Choice)
    requires cap > 0
    requires var s := Run(Init(cap, tasks), schedule);
             && t < |s.pcs| && (s.pcs[t].ExpandLock? || s.pcs[t].Publish?) && Step(s, t, c).pcs[t].Idle?
    ensures var s := Run(Init(cap, tasks), schedule);
            var gen := s.pcs[t].gen;
            var s' := Step(s, t, c);
            gen < |s'.gens| && Closed(s'.gens[gen]) && gen < s'.atom.gen && Told(s', gen)
  {
    hide Run, Init, Inv, Told, Closed;
    RunKeeps(cap, tasks, schedule);
    ReturnsClosed(Run(Init(cap, tasks), schedule), t, c);
    ReturnsTold(Run(Init(cap, tasks), schedule), t, c);
  }

  lemma {:induction false} ReturnsClosed(s: State, t: nat, c: Choice)
    requires Inv(s) && t < |s.pcs| && (s.pcs[t].ExpandLock? || s.pcs[t].Publish?) && Step(s, t, c).pcs[t].Idle?
    ensures var gen := s.pcs[t].gen;
            gen < |Step(s, t, c).gens| && Closed(Step(s, t, c).gens[gen]) && gen < Step(s, t, c).atom.gen
  {
    hide Counted, Waiters, Cells, Tickets;
    Exist(s, t);
    LockAt(s, t);
    assert Closed(s.gens[s.pcs[t].gen]);
  }

  /** When the generation is closed nobody sweeps it any more. */
  lemma {:induction false} NobodySweeps(s: State, t: nat, i: nat, c: Choice)
    requires Inv(s) && t < |s.pcs| && (s.pcs[t].ExpandLock? || s.pcs[t].Publish?) && Step(s, t, c).pcs[t].Idle?
    requires i < |s.pcs|
    ensures !s.pcs[i].SweepWake?
  {
    hide Inv;
    Exist(s, t);
    LockAt(s, t);
    LockAt(s, i);
  }

  lemma {:induction false} ReturnsTold(s: State, t: nat, c: Choice)
    requires Inv(s) && t < |s.pcs| && (s.pcs[t].ExpandLock? || s.pcs[t].Publish?) && Step(s, t, c).pcs[t].Idle?
    ensures Told(Step(s, t, c), s.pcs[t].gen)
  {
    hide Inv, Closed;
    Exist(s, t);
    ReturnsClosed(s, t, c);
    var s' := Step(s, t, c);
    var gen := s.pcs[t].gen;
    forall i | 0 <= i < |s'.pcs| && Waits(s'.pcs[i]) && s'.pcs[i].gen == gen
      ensures s'.pcs[i].waker in s'.rung || Notified(s'.pcs, s'.pcs[i].waker)
    {
      WaitAt(s, i);
      ClosedHere(s'.gens[gen], s.pcs[i].ticket);
      var waker := s.pcs[i].waker;
      if waker !in s.rung {
        var k :| 0 <= k < |s.pcs| && Rings(s.pcs[k], waker);
        NobodySweeps(s, t, k, c);
        assert s'.pcs[k] == s.pcs[k];
      }
    }
  }

  lemma {:induction false} ClosedHere(gen: Generation, ticket: nat)
    requires Closed(gen) && |gen| > 0
    ensures gen[ticket % |gen|].bucket.Tombstone?
  {
  }

  predicate AtRest(pcs: seq<Pc>)
  {
    forall i :: 0 <= i < |pcs| ==> pcs[i].Idle? || pcs[i].Parked?
  }

  lemma {:induction false} RestPending(pcs: seq<Pc>, gen: nat, r: nat, cap: nat)
    requires AtRest(pcs) && cap > 0
    ensures Pending(pcs, gen, r, cap) == 0
  {
    PendingNone(pcs, gen, r, cap);
  }

  /** No notification is lost: when no operation is in flight, a parked waiter whose
    waker has not been invoked is in the current generation, and its ticket is not
    among those notified; and the other way round. */
  lemma {:induction false} NoLostNotification(cap: nat, tasks: nat, schedule: seq<(nat, Choice)>, i: nat)
    requires cap > 0
    requires var s := Run(Init(cap, tasks), schedule); AtRest(s.pcs) && i < |s.pcs| && s.pcs[i].Parked?
    ensures var s := Run(Init(cap, tasks), schedule);
            var pc := s.pcs[i];
            && (pc.waker !in s.rung ==> pc.gen == s.atom.gen && pc.ticket >= s.atom.notifies)
            && (pc.gen == s.atom.gen && pc.ticket >= s.atom.notifies ==>
                  BucketOf(s, pc) == Waiting(pc.waker) && pc.waker !in s.rung)
  {
    hide Run, Init, Inv, Own;
    RunKeeps(cap, tasks, schedule);
    RunOwn(cap, tasks, schedule);
    var s := Run(Init(cap, tasks), schedule);
    RestWaiter(s, i);
    if BucketOf(s, s.pcs[i]) == Waiting(s.pcs[i].waker) {
      NotRung(s, s.pcs[i]);
    }
  }

  /** A waker in its bucket has not been invoked. */
  lemma {:induction false} NotRung(s: State, pc: Pc)
    requires Own(s) && pc.Parked? && BucketOf(s, pc) == Waiting(pc.waker)
    ensures pc.waker !in s.rung
  {
    assert InBucket(s.gens, pc.gen, pc.ticket % |s.gens[pc.gen]|, pc.waker);
  }

  /** The bucket a waiter's ticket falls on. */
  function BucketOf(s: State, pc: Pc): Bucket
    requires pc.Parked?
  {
    if Exists(s, pc.gen) then At(s, pc.gen, pc.ticket).bucket else Tombstone
  }

  lemma {:induction false} NobodyRings(pcs: seq<Pc>, waker: nat)
    requires AtRest(pcs)
    ensures !Ringing(pcs, waker)
  {
  }

  lemma {:induction false} RestOpen(s: State)
    requires Inv(s) && AtRest(s.pcs)
    ensures s.mutex.None? && Swept(s.mutex, s.pcs) == 0
  {
    if s.mutex.Some? {
      LockAt(s, s.mutex.value);
    }
  }

  lemma {:induction false} RestWaiter(s: State, i: nat)
    requires Inv(s) && AtRest(s.pcs) && i < |s.pcs| && s.pcs[i].Parked?
    ensures var pc := s.pcs[i];
            && (pc.waker !in s.rung ==> pc.gen == s.atom.gen && pc.ticket >= s.atom.notifies)
            && (pc.gen == s.atom.gen && pc.ticket >= s.atom.notifies ==> BucketOf(s, pc) == Waiting(pc.waker))
  {
    hide Inv;
    var pc := s.pcs[i];
    Exist(s, i);
    WaitAt(s, i);
    NobodyRings(s.pcs, pc.waker);
    RestOpen(s);
    var n := |s.gens[pc.gen]|;
    var r := pc.ticket % n;
    CellAt(s, pc.gen, r);
    if pc.gen == s.atom.gen {
      RestCount(s, r);
      var done := s.gens[pc.gen][r].done;
      if pc.ticket < s.atom.notifies {
        CountPast(s.atom.notifies, r, done, n);
      } else {
        CountUpTo(s.atom.notifies, r, done, n);
      }
    }
  }

  lemma {:induction false} RestCount(s: State, r: nat)
    requires Inv(s) && AtRest(s.pcs) && s.atom.gen < |s.gens| && r < |s.gens[s.atom.gen]|
    ensures s.gens[s.atom.gen][r].applied == Count(0, s.atom.notifies, r, |s.gens[s.atom.gen]|)
  {
    assert CountedAt(s.gens[s.atom.gen], s.atom, s.pcs, r);
    RestPending(s.pcs, s.atom.gen, r, |s.gens[s.atom.gen]|);
  }
}
