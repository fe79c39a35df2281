/**
 Reasoning about finite runs.  Every fencing argument in this project has the
 same shape: a fact that holds now and did not hold at the start was
 established by some last step, and has held without a gap ever since.
 */
module Traces {

  /** The step before the current unbroken stretch of states that satisfy `p`. */
  lemma {:induction false} LastEntry<S>(states: seq<S>, p: S -> bool, n: nat) returns (m: nat)
    requires n < |states|
    requires p(states[n]) && !p(states[0])
    ensures m < n && !p(states[m])
    ensures forall k :: m < k <= n ==> p(states[k])
  {
    if p(states[n - 1]) {
      m := LastEntry(states, p, n - 1);
    } else {
      m := n - 1;
    }
  }
}
