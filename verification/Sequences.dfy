/** Taking one element out of a sequence, and small facts on sequences and multisets. */
module Sequences {

  /** A sequence with one element unlinked; the sequence itself if it is not there. */
  function Without<T(==)>(ws: seq<T>, w: T): seq<T>
  {
    if ws == [] then []
    else if ws[0] == w then ws[1..]
    else [ws[0]] + Without(ws[1..], w)
  }

  lemma {:induction false} WithoutMultiset<T>(ws: seq<T>, w: T)
    ensures multiset(Without(ws, w)) == multiset(ws) - multiset{w}
    ensures w !in ws ==> Without(ws, w) == ws
  {
    if ws != [] {
      assert ws == [ws[0]] + ws[1..];
      WithoutMultiset(ws[1..], w);
    }
  }

  lemma {:induction false} WithoutAbsent<T>(ws: seq<T>, w: T)
    requires w !in ws
    ensures Without(ws, w) == ws
  {
    WithoutMultiset(ws, w);
  }

  lemma {:induction false} WithoutFront<T>(a: seq<T>, b: seq<T>, w: T)
    requires w !in b
    ensures Without(a + b, w) == Without(a, w) + b
  {
    if a == [] {
      assert a + b == b;
      WithoutAbsent(b, w);
    } else {
      assert (a + b)[1..] == a[1..] + b;
      WithoutFront(a[1..], b, w);
    }
  }

  lemma {:induction false} NoFront<T>(a: seq<T>)
    ensures [] + a == a
  {
  }

  lemma {:induction false} AddOne<W>(g: multiset<W>, h: multiset<W>, w: W)
    requires h <= g
    ensures g - h + (h + multiset{w}) == g + multiset{w}
  {
  }

  lemma {:induction false} HeadAndRest<W>(g: multiset<W>, ws: seq<W>)
    requires ws != []
    ensures g + multiset{ws[0]} + multiset(ws[1..]) == g + multiset(ws)
  {
    assert ws == [ws[0]] + ws[1..];
  }

  lemma {:induction false} Trade<W>(i: multiset<W>, g: multiset<W>, h: multiset<W>, rest: multiset<W>,
          taken: multiset<W>)
    requires h <= g && h == taken + rest
    ensures i + (g - h + rest) + taken == i + g
  {
    forall w: W
      ensures (i + (g - h + rest) + taken)[w] == (i + g)[w]
    {
      assert h[w] == taken[w] + rest[w];
    }
  }

  lemma {:induction false} Assoc<W>(a: multiset<W>, b: multiset<W>, c: multiset<W>)
    ensures a + b + c == a + (b + c)
  {
  }

  lemma {:induction false} TakeOne<W>(h: multiset<W>, w: W)
    requires w in h
    ensures h == multiset{w} + (h - multiset{w})
  {
  }

  lemma {:induction false} Handed<W>(rest: multiset<W>, all: multiset<W>, taken: multiset<W>, g: multiset<W>)
    requires rest + taken == all
    ensures rest + (g - multiset{} + taken) == all + g
  {
    assert rest + (g + taken) == (rest + taken) + g;
    assert g - multiset{} == g;
  }

  lemma {:induction false} HandLoses<W>(lists: multiset<W>, g: multiset<W>, hand: seq<W>)
    requires hand != [] && multiset(hand) <= g
    ensures lists + (g - multiset(hand) + multiset(hand[1..])) == lists + g - multiset{hand[0]}
  {
    assert hand == [hand[0]] + hand[1..];
    assert multiset(hand) == multiset{hand[0]} + multiset(hand[1..]);
  }

  lemma {:induction false} AppendLine<T>(a: seq<T>, b: seq<T>, c: seq<T>, w: T)
    ensures a + (b + (c + [w])) == (a + (b + c)) + [w]
  {
  }

  lemma {:induction false} Twice<T>(list: seq<T>, i: nat, j: nat)
    requires i < j < |list| && list[i] == list[j]
    ensures multiset(list)[list[i]] >= 2
  {
    assert list == list[..j] + list[j..];
    assert list[..j][i] in multiset(list[..j]);
    assert list[j..][0] in multiset(list[j..]);
  }
}
