/** Sums and multiset unions taken over an unbounded collection of tasks.

  A protocol state holds one program counter per task. Its invariants say that
  a word of the protocol equals the number of units the tasks hold together, or
  that a waiter sits in exactly one list, so each is a sum of a weight over all
  tasks. A step moves one or two tasks; the lemmas here say how a sum follows.
 */
module Counting {

  function Sum<T>(s: seq<T>, f: T -> nat): nat
  {
    if s == [] then 0 else f(s[0]) + Sum(s[1..], f)
  }

  /** Replacing one element trades its weight for the new one. */
  lemma {:induction false} SumUpdate<T>(s: seq<T>, f: T -> nat, i: nat, v: T)
    requires i < |s|
    ensures Sum(s[i := v], f) + f(s[i]) == Sum(s, f) + f(v)
  {
    if i == 0 {
      assert s[i := v][1..] == s[1..];
    } else {
      assert s[i := v][1..] == s[1..][i - 1 := v];
      SumUpdate(s[1..], f, i - 1, v);
    }
  }

  lemma {:induction false} SumAt<T>(s: seq<T>, f: T -> nat, i: nat)
    requires i < |s|
    ensures f(s[i]) <= Sum(s, f)
  {
    if i > 0 {
      SumAt(s[1..], f, i - 1);
    }
  }

  /** Two different tasks together weigh no more than all. */
  lemma {:induction false} SumTwo<T>(s: seq<T>, f: T -> nat, i: nat, j: nat)
    requires i < |s| && j < |s| && i != j
    ensures f(s[i]) + f(s[j]) <= Sum(s, f)
  {
    if i == 0 {
      SumAt(s[1..], f, j - 1);
    } else if j == 0 {
      SumAt(s[1..], f, i - 1);
    } else {
      SumTwo(s[1..], f, i - 1, j - 1);
    }
  }

  /** A positive sum is carried by some task. */
  lemma {:induction false} SumPick<T>(s: seq<T>, f: T -> nat) returns (k: nat)
    requires Sum(s, f) > 0
    ensures k < |s| && f(s[k]) > 0
  {
    if f(s[0]) > 0 {
      k := 0;
    } else {
      k := SumPick(s[1..], f);
      k := k + 1;
    }
  }

  /** More than task i's own weight is carried by some other task. */
  lemma {:induction false} SumPickOther<T>(s: seq<T>, f: T -> nat, i: nat) returns (k: nat)
    requires i < |s| && Sum(s, f) > f(s[i])
    ensures k < |s| && k != i && f(s[k]) > 0
  {
    if i == 0 {
      k := SumPick(s[1..], f);
      k := k + 1;
    } else if f(s[0]) > 0 {
      k := 0;
    } else {
      k := SumPickOther(s[1..], f, i - 1);
      k := k + 1;
    }
  }

  lemma {:induction false} SumZero<T>(s: seq<T>, f: T -> nat)
    requires forall i :: 0 <= i < |s| ==> f(s[i]) == 0
    ensures Sum(s, f) == 0
  {
    if s != [] {
      SumZero(s[1..], f);
    }
  }

  /** A weight bounded task by task by two others is bounded in sum. */
  lemma {:induction false} SumBound<T>(s: seq<T>, f: T -> nat, g: T -> nat, h: T -> nat)
    requires forall i :: 0 <= i < |s| ==> f(s[i]) <= g(s[i]) + h(s[i])
    ensures Sum(s, f) <= Sum(s, g) + Sum(s, h)
  {
    if s != [] {
      SumBound(s[1..], f, g, h);
    }
  }

  lemma {:induction false} AtMostOneEach<T>(s: seq<T>, f: T -> nat)
    requires forall i :: 0 <= i < |s| ==> f(s[i]) <= 1
    ensures Sum(s, f) <= |s|
  {
    if s != [] {
      AtMostOneEach(s[1..], f);
    }
  }

  lemma {:induction false} TwoWeights<T>(s: seq<T>, f: T -> nat, g: T -> nat)
    requires forall i :: 0 <= i < |s| ==> f(s[i]) + g(s[i]) <= 1
    ensures Sum(s, f) + Sum(s, g) <= |s|
  {
    if s != [] {
      TwoWeights(s[1..], f, g);
    }
  }

  /** The union, with multiplicity, of what every task holds. */
  function Gather<T, W(==)>(s: seq<T>, f: T -> multiset<W>): multiset<W>
  {
    if s == [] then multiset{} else f(s[0]) + Gather(s[1..], f)
  }

  lemma {:induction false} GatherUpdate<T, W>(s: seq<T>, f: T -> multiset<W>, i: nat, v: T)
    requires i < |s|
    ensures f(s[i]) <= Gather(s, f)
    ensures Gather(s[i := v], f) == Gather(s, f) - f(s[i]) + f(v)
    ensures f(s[i]) == f(v) ==> Gather(s[i := v], f) == Gather(s, f)
  {
    if i == 0 {
      assert s[i := v][1..] == s[1..];
      var r := Gather(s[1..], f);
      assert (f(s[0]) + r) - f(s[0]) + f(v) == f(v) + r;
    } else {
      assert s[i := v][1..] == s[1..][i - 1 := v];
      GatherUpdate(s[1..], f, i - 1, v);
      Exchange(f(s[0]), Gather(s[1..], f), f(s[i]), f(v));
    }
  }

  lemma {:induction false} Exchange<W>(a: multiset<W>, r: multiset<W>, b: multiset<W>, c: multiset<W>)
    requires b <= r
    ensures b <= a + r
    ensures a + (r - b + c) == (a + r) - b + c
    ensures b == c ==> r - b + c == r
  {
    forall w: W
      ensures (a + (r - b + c))[w] == ((a + r) - b + c)[w]
      ensures b[w] <= (a + r)[w]
    {
    }
  }

  lemma {:induction false} GatherAt<T, W>(s: seq<T>, f: T -> multiset<W>, i: nat)
    requires i < |s|
    ensures f(s[i]) <= Gather(s, f)
  {
    if i > 0 {
      GatherAt(s[1..], f, i - 1);
    }
  }

  lemma {:induction false} GatherPick<T, W>(s: seq<T>, f: T -> multiset<W>, w: W) returns (k: nat)
    requires w in Gather(s, f)
    ensures k < |s| && w in f(s[k])
  {
    if w in f(s[0]) {
      k := 0;
    } else {
      k := GatherPick(s[1..], f, w);
      k := k + 1;
    }
  }

  lemma {:induction false} GatherEmpty<T, W>(s: seq<T>, f: T -> multiset<W>)
    requires forall i :: 0 <= i < |s| ==> f(s[i]) == multiset{}
    ensures Gather(s, f) == multiset{}
  {
    if s != [] {
      GatherEmpty(s[1..], f);
    }
  }

  /** What each task is, seen through f. */
  function Map<T, U>(s: seq<T>, f: T -> U): (r: seq<U>)
    ensures |r| == |s|
    ensures forall i :: 0 <= i < |s| ==> r[i] == f(s[i])
  {
    seq(|s|, i requires 0 <= i < |s| => f(s[i]))
  }

  lemma {:induction false} MapUpdate<T, U>(s: seq<T>, f: T -> U, i: nat, v: T)
    requires i < |s|
    ensures Map(s[i := v], f) == Map(s, f)[i := f(v)]
  {
  }
}
