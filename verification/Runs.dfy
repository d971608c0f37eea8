/** Runs of a step machine.

    Every concurrent protocol of this project is a function from a state and an
    atomic action to the next state, `None` when the action is not enabled. A
    sequence of actions is one interleaving; `Execute` replays it. */
module Runs {

  import opened Options

  /** The state reached by performing `actions` in order, if each is enabled. */
  function Execute<S, A>(step: (S, A) -> Option<S>, s: S, actions: seq<A>): Option<S>
    decreases |actions|
  {
    if actions == [] then Some(s)
    else
      var next := step(s, actions[0]);
      if next.None? then None else Execute(step, next.value, actions[1..])
  }

  /** `inv` survives every enabled step. */
  ghost predicate Inductive<S(!new), A(!new)>(step: (S, A) -> Option<S>, inv: S -> bool) {
    forall s: S, a: A :: inv(s) && step(s, a).Some? ==> inv(step(s, a).value)
  }

  /** An inductive invariant holds in every state a run can reach. */
  lemma {:induction false} Preserved<S(!new), A(!new)>(
    step: (S, A) -> Option<S>, inv: S -> bool, s: S, actions: seq<A>)
    requires Inductive(step, inv)
    requires inv(s)
    ensures Execute(step, s, actions).Some? ==> inv(Execute(step, s, actions).value)
    decreases |actions|
  {
    if actions != [] && step(s, actions[0]).Some? {
      Preserved(step, inv, step(s, actions[0]).value, actions[1..]);
    }
  }

  /** A run may be cut anywhere: its second part continues from where its first stopped. */
  lemma {:induction false} Concatenated<S, A>(
    step: (S, A) -> Option<S>, s: S, first: seq<A>, rest: seq<A>)
    requires Execute(step, s, first).Some?
    ensures Execute(step, s, first + rest) == Execute(step, Execute(step, s, first).value, rest)
    decreases |first|
  {
    if first == [] {
      assert first + rest == rest;
    } else {
      assert (first + rest)[0] == first[0] && (first + rest)[1..] == first[1..] + rest;
      Concatenated(step, step(s, first[0]).value, first[1..], rest);
    }
  }

  /** What a run starts with is a run. */
  lemma {:induction false} PrefixRuns<S, A>(step: (S, A) -> Option<S>, s: S, first: seq<A>, rest: seq<A>)
    requires Execute(step, s, first + rest).Some?
    ensures Execute(step, s, first).Some?
    decreases |first|
  {
    if first != [] {
      assert (first + rest)[0] == first[0] && (first + rest)[1..] == first[1..] + rest;
      PrefixRuns(step, step(s, first[0]).value, first[1..], rest);
    }
  }

  /** The last action of a run, taken from where the rest of it led. */
  lemma {:induction false} LastStep<S, A>(step: (S, A) -> Option<S>, s: S, actions: seq<A>)
    requires actions != [] && Execute(step, s, actions).Some?
    ensures var n := |actions| - 1;
            && Execute(step, s, actions[..n]).Some?
            && Execute(step, s, actions) == step(Execute(step, s, actions[..n]).value, actions[n])
    decreases |actions|
  {
    var n := |actions| - 1;
    if n > 0 {
      assert actions[1..][..n - 1] == actions[..n][1..];
      LastStep(step, step(s, actions[0]).value, actions[1..]);
    }
  }

}
