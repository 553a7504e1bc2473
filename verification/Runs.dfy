/** Induction along the states of a run. */
module Runs {
  lemma {:induction false} InvariantAlong<T(!new)>(states: seq<T>, inv: T -> bool, i: nat)
    requires i < |states| && inv(states[0])
    requires forall k :: 0 <= k < |states| - 1 && inv(states[k]) ==> inv(states[k + 1])
    ensures inv(states[i])
  {
    if i > 0 {
      InvariantAlong(states, inv, i - 1);
      assert inv(states[i - 1 + 1]);
    }
  }

  lemma {:induction false} OrderAlong<T(!new)>(states: seq<T>, later: (T, T) -> bool, i: nat, j: nat)
    requires i <= j < |states|
    requires forall k :: 0 <= k < |states| - 1 ==> later(states[k], states[k + 1])
    requires forall a :: later(a, a)
    requires forall a, b, c :: later(a, b) && later(b, c) ==> later(a, c)
    ensures later(states[i], states[j])
    decreases j - i
  {
    if i < j {
      OrderAlong(states, later, i, j - 1);
      assert later(states[j - 1], states[j - 1 + 1]);
    }
  }

  /** What comes to hold along a run does so at some step. */
  lemma {:induction false} HoldsFrom<T>(states: seq<T>, holds: T -> bool, i: nat) returns (j: nat)
    requires i < |states| && !holds(states[0]) && holds(states[i])
    ensures j < i && !holds(states[j]) && holds(states[j + 1])
  {
    j := i - 1;
    if holds(states[i - 1]) {
      j := HoldsFrom(states, holds, i - 1);
    }
  }
}
