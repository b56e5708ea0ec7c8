/**
 Runs of a state machine whose every step is a function of the state and one event.
 */
module Traces {

  function After<S, E>(next: (S, E) -> S, s: S, trace: seq<E>): S
    decreases |trace|
  {
    if trace == [] then s else After(next, next(s, trace[0]), trace[1..])
  }

  lemma {:induction false} Concat<S, E>(next: (S, E) -> S, s: S, a: seq<E>, b: seq<E>)
    ensures After(next, s, a + b) == After(next, After(next, s, a), b)
    decreases |a|
  {
    if a == [] {
      assert a + b == b;
    } else {
      assert (a + b)[1..] == a[1..] + b;
      Concat(next, next(s, a[0]), a[1..], b);
    }
  }

  /** The state before step `i` and the one after it. */
  lemma {:induction false} OneMore<S, E>(next: (S, E) -> S, s: S, trace: seq<E>, i: nat)
    requires i < |trace|
    ensures After(next, s, trace[..i + 1]) == next(After(next, s, trace[..i]), trace[i])
  {
    assert trace[..i + 1] == trace[..i] + [trace[i]];
    Concat(next, s, trace[..i], [trace[i]]);
    assert [trace[i]][1..] == [];
  }

  /** A stretch of a trace continues from the state it starts in. */
  lemma {:induction false} Stretch<S, E>(next: (S, E) -> S, s: S, trace: seq<E>, i: nat, j: nat)
    requires i <= j <= |trace|
    ensures After(next, s, trace[..j]) == After(next, After(next, s, trace[..i]), trace[i..j])
  {
    assert trace[..j] == trace[..i] + trace[i..j];
    Concat(next, s, trace[..i], trace[i..j]);
  }
}
