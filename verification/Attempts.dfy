/** One attempt at a weak compare-and-swap of a futex's word and inbox, which fails if the
  futex is not what the caller has seen or for no reason, as spurious says. The caller
  stores what the word and the futex have become. On success the caller's snapshot keeps
  the old value.
 */
module Attempts {
  import opened Futex

  /** The inbox stays. */
  method CmpxchgWeak<W(==)>(now: Snap<W>, current: Snap<W>, new_: W, spurious: bool)
    returns (ok: bool, seen: Snap<W>, word: W)
    ensures ok == (!spurious && current == now) && seen == (if ok then current else now)
    ensures word == if ok then new_ else now.word
  {
    ok := !spurious && current == now;
    seen := now;
    word := if ok then new_ else now.word;
  }

  /** The waiter becomes the top of the inbox. */
  method CmpxchgWaitWeak<W(==)>(now: Snap<W>, futex: Futex, w: Waiter, current: Snap<W>, new_: W, spurious: bool)
    returns (ok: bool, seen: Snap<W>, word: W, futex': Futex)
    ensures ok == (!spurious && current == now) && seen == (if ok then current else now)
    ensures word == (if ok then new_ else now.word) && futex' == if ok then Push(futex, w) else futex
  {
    ok, seen, word := CmpxchgWeak(now, current, new_, spurious);
    futex' := if ok then Push(futex, w) else futex;
  }

  /** The inbox is taken and distributed. */
  method CmpxchgEnqueueWeak<W(==)>(now: Snap<W>, futex: Futex, current: Snap<W>, new_: W, spurious: bool)
    returns (ok: bool, seen: Snap<W>, word: W, futex': Futex)
    ensures ok == (!spurious && current == now) && seen == (if ok then current else now)
    ensures word == (if ok then new_ else now.word) && futex' == if ok then Enqueue(futex) else futex
  {
    ok, seen, word := CmpxchgWeak(now, current, new_, spurious);
    futex' := if ok then Enqueue(futex) else futex;
  }
}
