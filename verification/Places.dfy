/** Positions that go round a ring of places. */
module Places {

  lemma {:induction false} AtLeastOne(k: nat, cap: nat)
    requires k > 0
    ensures k * cap >= cap
  {
    assert k * cap == (k - 1) * cap + cap;
  }

  /** Positions less than a round apart have different places. */
  lemma {:induction false} SamePlace(p: nat, q: nat, cap: nat)
    requires cap > 0 && p <= q < p + cap && p % cap == q % cap
    ensures p == q
  {
    var a, b := p / cap, q / cap;
    assert q - p == (b - a) * cap;
    if b > a {
      AtLeastOne(b - a, cap);
    } else if b < a {
      AtLeastOne(a - b, cap);
    }
  }

  lemma {:induction false} Remainder(n: nat, a: nat, r: nat, cap: nat)
    requires 0 <= r < cap && n == a * cap + r
    ensures n % cap == r
  {
    var b := n / cap;
    assert (b - a) * cap == r - n % cap;
    if b > a {
      AtLeastOne(b - a, cap);
    } else if b < a {
      AtLeastOne(a - b, cap);
    }
  }

  lemma {:induction false} PlaceOf(r: nat, k: nat, cap: nat)
    requires r < cap
    ensures (r + k * cap) % cap == r
  {
    Remainder(r + k * cap, k, r, cap);
  }

  lemma {:induction false} InRange(n: nat, cap: nat)
    requires n < cap
    ensures n % cap == n
  {
  }

  /** A round later the place is the same. */
  lemma {:induction false} RoundPlace(p: nat, cap: nat)
    requires cap > 0
    ensures (p + cap) % cap == p % cap
  {
    var a := p / cap;
    assert p == a * cap + p % cap;
    assert p + cap == (a + 1) * cap + p % cap;
    Remainder(p + cap, a + 1, p % cap, cap);
  }

  lemma {:induction false} SumPlace(p: nat, q: nat, cap: nat)
    requires cap > 0
    ensures (p % cap + q) % cap == (p + q) % cap
  {
    var a, b := p / cap, (p % cap + q) / cap;
    assert p == a * cap + p % cap;
    assert p % cap + q == b * cap + (p % cap + q) % cap;
    assert p + q == (a + b) * cap + (p % cap + q) % cap;
    Remainder(p + q, a + b, (p % cap + q) % cap, cap);
  }

  lemma {:induction false} NextPlace(p: nat, cap: nat)
    requires cap > 0
    ensures (p % cap + 1) % cap == (p + 1) % cap
  {
    SumPlace(p, 1, cap);
  }
}
