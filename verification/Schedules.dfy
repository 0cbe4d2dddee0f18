/** Which states a step machine can reach from which, by some schedule of its actions. */
module Schedules {

  function Fold<S, A>(next: (S, A) -> S, s: S, actions: seq<A>): S
    decreases |actions|
  {
    if actions == [] then s else Fold(next, next(s, actions[0]), actions[1..])
  }

  ghost predicate Reaches<S, A(!new)>(next: (S, A) -> S, s: S, u: S) {
    exists actions: seq<A> :: Fold(next, s, actions) == u
  }

  lemma Stays<S, A(!new)>(next: (S, A) -> S, s: S)
    ensures Reaches(next, s, s)
  {
    assert Fold(next, s, []) == s;
  }

  lemma {:induction false} FoldConcat<S, A>(next: (S, A) -> S, s: S, x: seq<A>, y: seq<A>)
    ensures Fold(next, s, x + y) == Fold(next, Fold(next, s, x), y)
    decreases |x|
  {
    if x == [] {
      assert x + y == y;
    } else {
      assert (x + y)[1..] == x[1..] + y;
      FoldConcat(next, next(s, x[0]), x[1..], y);
    }
  }

  /** One action more. */
  lemma Then<S, A(!new)>(next: (S, A) -> S, s: S, u: S, a: A)
    requires Reaches(next, s, u)
    ensures Reaches(next, s, next(u, a))
  {
    var actions: seq<A> :| Fold(next, s, actions) == u;
    FoldConcat(next, s, actions, [a]);
    assert [a][1..] == [];
    assert Fold(next, u, [a]) == Fold(next, next(u, a), []);
  }
}
