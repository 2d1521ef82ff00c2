/** Induction over finite runs of a transition relation. */
module Runs {

  /** `states[i]` is the state before event `i`. */
  ghost predicate Chain<S(!new), E(!new)>(states: seq<S>, events: seq<E>, next: (S, E, S) -> bool) {
    && |states| == |events| + 1
    && forall i :: 0 <= i < |events| ==> next(states[i], events[i], states[i + 1])
  }

  /** Each step that has `n` events left keeps `inv` with one less, and moves along `rel`. */
  ghost predicate StepKeeps<S(!new), E(!new)>(next: (S, E, S) -> bool, inv: (S, nat) -> bool, rel: (S, S) -> bool) {
    forall s, e, t, n: nat :: next(s, e, t) && inv(s, n) && 0 < n ==> inv(t, n - 1) && rel(s, t)
  }

  ghost predicate Preorder<S(!new)>(rel: (S, S) -> bool) {
    && (forall s :: rel(s, s))
    && (forall s, t, u :: rel(s, t) && rel(t, u) ==> rel(s, u))
  }

  /** Each step that has `n` events left keeps `inv` with one less. */
  ghost predicate StepHolds<S(!new), E(!new)>(next: (S, E, S) -> bool, inv: (S, nat) -> bool) {
    forall s, e, t, n: nat :: next(s, e, t) && inv(s, n) && 0 < n ==> inv(t, n - 1)
  }

  lemma {:induction false} ChainHolds<S(!new), E(!new)>(states: seq<S>, events: seq<E>, next: (S, E, S) -> bool, inv: (S, nat) -> bool, i: nat)
    requires Chain(states, events, next) && inv(states[0], |events|) && StepHolds(next, inv) && i <= |events|
    ensures inv(states[i], |events| - i)
    decreases i
  {
    if i > 0 {
      ChainHolds(states, events, next, inv, i - 1);
      assert next(states[i - 1], events[i - 1], states[i]);
      assert inv(states[i - 1], |events| - (i - 1));
    }
  }

  lemma {:induction false} ChainKeeps<S(!new), E(!new)>(
    states: seq<S>, events: seq<E>, next: (S, E, S) -> bool, inv: (S, nat) -> bool, rel: (S, S) -> bool, m: nat, n: nat)
    requires Chain(states, events, next) && inv(states[0], |events|)
    requires StepKeeps(next, inv, rel) && Preorder(rel)
    requires m <= n <= |events|
    ensures inv(states[n], |events| - n) && rel(states[m], states[n])
    decreases n
  {
    if n > 0 {
      var k := if m < n then m else n - 1;
      ChainKeeps(states, events, next, inv, rel, k, n - 1);
      assert next(states[n - 1], events[n - 1], states[n]);
      assert inv(states[n - 1], |events| - (n - 1));
      assert rel(states[n - 1], states[n]);
    }
  }

  /** What the steps `m` to `n` of a run contribute, joined. */
  ghost function Joined<T>(parts: seq<seq<T>>, m: nat, n: nat): seq<T>
    requires m <= n <= |parts|
    decreases n
  {
    if m == n then [] else Joined(parts, m, n - 1) + parts[n - 1]
  }

  lemma {:induction false} JoinedHolds<T>(parts: seq<seq<T>>, m: nat, n: nat, j: nat, x: T)
    requires m <= j < n <= |parts| && x in parts[j]
    ensures x in Joined(parts, m, n)
    decreases n
  {
    if j < n - 1 {
      JoinedHolds(parts, m, n - 1, j, x);
    }
  }
}
