/** Runs that go on. */
module Traces {

  /** The run b goes on where the run a ended. */
  ghost predicate Extends<T>(a: seq<T>, b: seq<T>)
  {
    a <= b
  }

  lemma {:induction false} ExtendsOrder<T(!new)>()
    ensures forall a: seq<T> :: Extends(a, a)
    ensures forall a: seq<T>, b: seq<T>, c: seq<T> {:trigger Extends(a, b), Extends(b, c)} ::
              Extends(a, b) && Extends(b, c) ==> Extends(a, c)
  {
  }
}
