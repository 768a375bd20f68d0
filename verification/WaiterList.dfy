/** The intrusive lists of waiters: a doubly linked queue through next and prev, and a
  stack through prev alone, both refining sequences.

  The convention that makes cancellation safe is that a waiter taken out of a queue
  keeps no link: removing it again then changes nothing.
 */
module WaiterLists {
  import F = Futex
  import opened Sequences

  /** usize::MAX, the count that stands for all waiters. */
  const ALL: nat := 0xffff_ffff_ffff_ffff

  class Waiter {
    var next: Waiter?
    var prev: Waiter?
    /** The futex the waiter belongs to, by number. */
    var owner: nat
    const task: nat
    const queue: nat

    constructor (task: nat, queue: nat, owner: nat)
      ensures this.task == task && this.queue == queue && this.owner == owner
      ensures next == null && prev == null
    {
      next, prev := null, null;
      this.owner, this.task, this.queue := owner, task, queue;
    }
  }

  /** How many of so many waiters a count stands for. */
  function Share(count: nat, waiters: nat): (n: nat)
    ensures n <= waiters
  {
    if count == ALL || count > waiters then waiters else count
  }

  /** What a waiter is called in the model of the futex. */
  function Name(w: Waiter): F.Waiter
  {
    F.Waiter(w.task, w.queue)
  }

  function Names(ws: seq<Waiter>): (r: seq<F.Waiter>)
    ensures |r| == |ws|
    ensures forall i :: 0 <= i < |ws| ==> r[i] == Name(ws[i])
  {
    seq(|ws|, i requires 0 <= i < |ws| => Name(ws[i]))
  }

  predicate Distinct(ws: seq<Waiter>)
  {
    forall i, j :: 0 <= i < j < |ws| ==> ws[i].task != ws[j].task
  }

  /** No waiter is in both. */
  predicate Apart(a: seq<Waiter>, b: seq<Waiter>)
  {
    forall i, j :: 0 <= i < |a| && 0 <= j < |b| ==> a[i].task != b[j].task
  }

  function Nth(ws: seq<Waiter>, i: int): Waiter?
  {
    if 0 <= i < |ws| then ws[i] else null
  }

  /** The waiters are linked both ways, and the ends are open. */
  ghost predicate Linked(ws: seq<Waiter>)
    reads ws
  {
    && Distinct(ws)
    && (forall i {:trigger ws[i].next} :: 0 <= i < |ws| ==> ws[i].next == Nth(ws, i + 1))
    && (forall i {:trigger ws[i].prev} :: 0 <= i < |ws| ==> ws[i].prev == Nth(ws, i - 1))
  }

  /** The waiters, oldest first, are linked backwards from the newest. */
  ghost predicate Stacked(ws: seq<Waiter>)
    reads ws
  {
    && Distinct(ws)
    && (forall i {:trigger ws[i].prev} :: 0 <= i < |ws| ==> ws[i].prev == Nth(ws, i - 1))
    && (ws != [] ==> ws[|ws| - 1].next == null)
  }

  class WaiterList {
    var head: Waiter?
    var tail: Waiter?
    ghost var nodes: seq<Waiter>

    ghost predicate Valid()
      reads this, nodes
    {
      && Linked(nodes)
      && head == Nth(nodes, 0) && tail == Nth(nodes, |nodes| - 1)
    }

    constructor ()
      ensures Valid() && nodes == []
    {
      head, tail := null, null;
      nodes := [];
    }

    /** Rebuilds the list of a stack, following its prev links from the newest waiter. */
    constructor FromStack(top: Waiter?, ghost stack: seq<Waiter>)
      requires Stacked(stack) && top == Nth(stack, |stack| - 1)
      modifies stack`next
      ensures Valid() && nodes == stack
    {
      head, tail := top, top;
      nodes := stack;
      new;
      ghost var k := |stack| - 1;
      while head != null && head.prev != null
        invariant stack != [] ==> 0 <= k < |stack| && head == stack[k]
        invariant stack == [] ==> head == null
        invariant tail == top && nodes == stack && Distinct(stack)
        invariant forall i {:trigger stack[i].prev} :: 0 <= i < |stack| ==> stack[i].prev == Nth(stack, i - 1)
        invariant forall i {:trigger stack[i].next} :: k <= i < |stack| && 0 <= i ==> stack[i].next == Nth(stack, i + 1)
        decreases k
      {
        head.prev.next := head;
        head := head.prev;
        k := k - 1;
      }
    }

    predicate IsEmpty()
      requires Valid()
      reads this, nodes
      ensures IsEmpty() <==> nodes == []
    {
      head == null
    }

    /** Takes the first waiter, if any, and leaves it without links. */
    method PopFront() returns (w: Waiter?)
      requires Valid()
      modifies this, nodes`next, nodes`prev
      ensures Valid()
      ensures w == Nth(old(nodes), 0)
      ensures nodes == if old(nodes) == [] then [] else old(nodes)[1..]
      ensures w != null ==> w.next == null && w.prev == null
    {
      w := head;
      if w != null {
        head := w.next;
        if tail == w {
          tail := null;
        }
        if w.next != null {
          w.next.prev := null;
        }
        w.next := null;
        nodes := nodes[1..];
      }
    }

    /** Appends a waiter that has no links. */
    method PushBack(w: Waiter)
      requires Valid() && w.next == null && w.prev == null && Apart(nodes, [w])
      modifies this, nodes`next, w`prev
      ensures Valid() && nodes == old(nodes) + [w]
    {
      ghost var ws := nodes;
      NotAmong(ws, w);
      DistinctAppend(ws, w);
      if head == null && tail == null {
        head, tail := w, w;
      } else {
        Others(ws, |ws| - 1);
        tail.next := w;
        w.prev := tail;
        tail := w;
      }
      nodes := nodes + [w];
      forall i | 0 <= i < |nodes|
        ensures nodes[i].next == Nth(nodes, i + 1) && nodes[i].prev == Nth(nodes, i - 1)
      {
        assert i < |ws| ==> nodes[i] == ws[i];
        assert i > 0 ==> nodes[i - 1] == ws[i - 1];
      }
    }

    /** Unlinks a waiter of the list; a waiter popped before, which has no links, is left
      alone, and so is the list. */
    method Remove(w: Waiter)
      requires Valid() && (w in nodes || (w.next == null && w.prev == null))
      modifies this, nodes`next, nodes`prev
      ensures Valid() && nodes == Without(old(nodes), w)
      ensures w !in old(nodes) ==> unchanged(this) && unchanged(nodes)
    {
      hide Distinct, Nth, PrevPast;
      ghost var ws := nodes;
      var p, n := w.prev, w.next;
      SkipNext(w, p, n);
      SkipPrev(w, p, n);
      if w in ws {
        ghost var i := IndexOf(ws, w);
        WithoutAt(ws, i);
        CutLinked(ws, i);
        CutEnds(ws, i, ws[..i] + ws[i + 1..], p, n, head, tail);
        nodes := ws[..i] + ws[i + 1..];
      } else {
        WithoutAbsent(ws, w);
      }
    }

    /** Whoever comes before w, or the head, now leads to whoever comes after it. */
    method SkipNext(w: Waiter, p: Waiter?, n: Waiter?)
      requires Valid() && p == w.prev && n == w.next && (w in nodes || (n == null && p == null))
      modifies this`head, nodes`next
      ensures w !in nodes ==> unchanged(this) && unchanged(nodes)
      ensures w in nodes ==> NextPast(nodes, IndexOf(nodes, w))
      ensures w in nodes ==> head == if IndexOf(nodes, w) == 0 then n else old(head)
      ensures w in nodes ==> p == Nth(nodes, IndexOf(nodes, w) - 1) && n == Nth(nodes, IndexOf(nodes, w) + 1)
    {
      hide Distinct;
      if w in nodes {
        ghost var i: int := IndexOf(nodes, w);
        Differ(nodes, 0, i);
        DifferFrom(nodes, i - 1);
      }
      if p == null {
        if head == w {
          head := n;
        }
      } else {
        p.next := n;
      }
    }

    /** Whoever comes after w, or the tail, now leads back to whoever comes before it. */
    method SkipPrev(w: Waiter, p: Waiter?, n: Waiter?)
      requires Distinct(nodes) && tail == Nth(nodes, |nodes| - 1)
      requires forall i {:trigger nodes[i].prev} :: 0 <= i < |nodes| ==> nodes[i].prev == Nth(nodes, i - 1)
      requires if w in nodes then p == Nth(nodes, IndexOf(nodes, w) - 1) && n == Nth(nodes, IndexOf(nodes, w) + 1)
               else n == null && p == null
      modifies this`tail, nodes`prev
      ensures w !in nodes ==> unchanged(this) && unchanged(nodes)
      ensures w in nodes ==> PrevPast(nodes, IndexOf(nodes, w))
      ensures w in nodes ==> tail == if IndexOf(nodes, w) == |nodes| - 1 then p else old(tail)
    {
      hide Distinct;
      if w in nodes {
        ghost var i := IndexOf(nodes, w);
        Differ(nodes, |nodes| - 1, i);
        DifferFrom(nodes, i + 1);
      }
      if n == null {
        if tail == w {
          tail := p;
        }
      } else {
        n.prev := p;
      }
    }

    /** Splits off the first count waiters, or all of them. */
    method PopFrontMany(count: nat) returns (list: WaiterList)
      requires Valid() && count <= ALL
      modifies this, nodes`next, nodes`prev
      ensures Valid() && list.Valid() && fresh(list)
      ensures var n := Share(count, |old(nodes)|); list.nodes == old(nodes)[..n] && nodes == old(nodes)[n..]
    {
      list := new WaiterList();
      if count == ALL {
        MoveTo(list);
        return;
      }
      var keep, left := head, count;
      ghost var k := 0;
      while keep != null && left > 0
        invariant 0 <= k <= |nodes| && left == count - k && keep == Nth(nodes, k)
        decreases left
      {
        keep := keep.next;
        left := left - 1;
        k := k + 1;
      }
      if keep == null {
        MoveTo(list);
      } else if keep.prev != null {
        SplitAt(list, keep, k);
      }
    }

    /** The whole list moves to an empty one. */
    method MoveTo(list: WaiterList)
      requires Valid() && list.Valid() && list.nodes == [] && list != this
      modifies this, list
      ensures Valid() && list.Valid() && list.nodes == old(nodes) && nodes == []
    {
      list.head, list.tail, list.nodes := head, tail, nodes;
      head, tail, nodes := null, null, [];
    }

    /** The waiters before keep move to an empty list. */
    method SplitAt(list: WaiterList, keep: Waiter, ghost k: nat)
      requires Valid() && list.Valid() && list.nodes == [] && list != this
      requires 0 < k < |nodes| && keep == nodes[k]
      modifies this, list, nodes`next, nodes`prev
      ensures Valid() && list.Valid() && list.nodes == old(nodes)[..k] && nodes == old(nodes)[k..]
    {
      var last := keep.prev;
      list.head, list.tail, list.nodes := head, last, nodes[..k];
      head, nodes := keep, nodes[k..];
      last.next := null;
      keep.prev := null;
    }

    /** How many waiters there are, by walking the list. */
    method Count() returns (n: nat)
      requires Valid()
      ensures n == |nodes|
    {
      n := 0;
      var w := head;
      while w != null
        invariant 0 <= n <= |nodes| && w == Nth(nodes, n)
        decreases |nodes| - n
      {
        w := w.next;
        n := n + 1;
      }
    }

    /** Tells every waiter of the list its new owner. */
    method SetOwner(owner: nat)
      requires Valid()
      modifies nodes`owner
      ensures Valid() && forall v :: v in nodes ==> v.owner == owner
    {
      var w := head;
      ghost var n := 0;
      while w != null
        invariant 0 <= n <= |nodes| && w == Nth(nodes, n)
        invariant forall i :: 0 <= i < n ==> nodes[i].owner == owner
        decreases |nodes| - n
      {
        w.owner := owner;
        w := w.next;
        n := n + 1;
      }
    }
  }

  /** A list whose waiters keep their links stays what it is. */
  twostate lemma Kept(list: WaiterList)
    requires old(list.Valid()) && unchanged(list)
    requires forall w :: w in list.nodes ==> w.next == old(w.next) && w.prev == old(w.prev)
    ensures list.Valid()
  {
  }

  // ----- sequences of waiters -----

  ghost function IndexOf<T>(ws: seq<T>, w: T): (i: nat)
    requires w in ws
    ensures i < |ws| && ws[i] == w
  {
    var i :| 0 <= i < |ws| && ws[i] == w; i
  }

  /** The links of a list with the neighbours of the i-th waiter linked past it. */
  ghost predicate NextPast(ws: seq<Waiter>, i: nat)
    requires i < |ws|
    reads ws
  {
    forall j {:trigger ws[j].next} :: 0 <= j < |ws| && j != i ==>
        ws[j].next == Nth(ws, if j == i - 1 then i + 1 else j + 1)
  }

  ghost predicate PrevPast(ws: seq<Waiter>, i: nat)
    requires i < |ws|
    reads ws
  {
    forall j {:trigger ws[j].prev} :: 0 <= j < |ws| && j != i ==>
        ws[j].prev == Nth(ws, if j == i + 1 then i - 1 else j - 1)
  }

  lemma {:induction false} CutLinked(ws: seq<Waiter>, i: nat)
    requires i < |ws| && Distinct(ws) && NextPast(ws, i) && PrevPast(ws, i)
    ensures Linked(ws[..i] + ws[i + 1..])
  {
    var rest := ws[..i] + ws[i + 1..];
    DistinctCut(ws, i);
    forall j | 0 <= j < |rest|
      ensures rest[j].next == Nth(rest, j + 1) && rest[j].prev == Nth(rest, j - 1)
    {
      assert rest[j] == if j < i then ws[j] else ws[j + 1];
    }
  }

  lemma {:induction false} Others(ws: seq<Waiter>, k: nat)
    requires Distinct(ws) && k < |ws|
    ensures forall i :: 0 <= i < |ws| && i != k ==> ws[i] != ws[k]
  {
    forall i | 0 <= i < |ws| && i != k
      ensures ws[i] != ws[k]
    {
      assert if i < k then ws[i].task != ws[k].task else ws[k].task != ws[i].task;
    }
  }

  lemma {:induction false} CutEnds(ws: seq<Waiter>, i: nat, rest: seq<Waiter>, p: Waiter?, n: Waiter?, head: Waiter?,
          tail: Waiter?)
    requires i < |ws| && rest == ws[..i] + ws[i + 1..]
    requires p == Nth(ws, i - 1) && n == Nth(ws, i + 1)
    requires head == if i == 0 then n else Nth(ws, 0)
    requires tail == if i == |ws| - 1 then p else Nth(ws, |ws| - 1)
    ensures head == Nth(rest, 0) && tail == Nth(rest, |rest| - 1)
  {
  }

  lemma {:induction false} DifferFrom(ws: seq<Waiter>, k: int)
    requires Distinct(ws)
    ensures forall i {:trigger ws[i].next} {:trigger ws[i].prev} :: 0 <= i < |ws| && i != k ==> ws[i] != Nth(ws, k)
  {
    forall i | 0 <= i < |ws| && i != k
      ensures ws[i] != Nth(ws, k)
    {
      if 0 <= k < |ws| {
        Differ(ws, i, k);
      }
    }
  }

  lemma {:induction false} Differ(ws: seq<Waiter>, i: nat, k: nat)
    requires Distinct(ws) && i < |ws| && k < |ws|
    ensures i != k ==> ws[i] != ws[k]
  {
    Others(ws, k);
  }

  lemma {:induction false} NotAmong(ws: seq<Waiter>, w: Waiter)
    requires Apart(ws, [w])
    ensures forall i :: 0 <= i < |ws| ==> ws[i] != w
  {
    assert [w][0] == w;
  }

  lemma {:induction false} DistinctAppend(ws: seq<Waiter>, w: Waiter)
    requires Distinct(ws) && Apart(ws, [w])
    ensures Distinct(ws + [w])
  {
    assert [w][0] == w;
  }

  lemma {:induction false} DistinctCut(ws: seq<Waiter>, i: nat)
    requires Distinct(ws) && i < |ws|
    ensures Distinct(ws[..i] + ws[i + 1..])
  {
  }

  /** Unlinking the i-th waiter closes the gap and moves nobody else. */
  lemma {:induction false} WithoutAt(ws: seq<Waiter>, i: nat)
    requires i < |ws| && Distinct(ws)
    ensures Without(ws, ws[i]) == ws[..i] + ws[i + 1..]
  {
    if i > 0 {
      var rest := ws[1..];
      assert rest[i - 1] == ws[i] && ws[0] != ws[i];
      WithoutAt(rest, i - 1);
      assert [ws[0]] + rest[..i - 1] == ws[..i] && rest[i..] == ws[i + 1..];
    }
  }
}
