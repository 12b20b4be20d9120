/** Runs of a transition function. */
module Runs {
  import opened Wrappers

  /** The state after some actions, if each was possible. */
  function After<S, A>(step: (S, A) -> Option<S>, s: S, actions: seq<A>): Option<S>
    decreases |actions|
  {
    if actions == [] then Some(s)
    else
      var t := step(s, actions[0]);
      if t.None? then None else After(step, t.value, actions[1..])
  }

  lemma {:induction false} AfterOneMore<S, A>(step: (S, A) -> Option<S>, s: S, actions: seq<A>, a: A)
    requires After(step, s, actions).Some?
    ensures After(step, s, actions + [a]) == step(After(step, s, actions).value, a)
    decreases |actions|
  {
    if actions == [] {
      assert ([] + [a])[1..] == [];
    } else {
      AfterOneMore(step, step(s, actions[0]).value, actions[1..], a);
      assert (actions + [a])[1..] == actions[1..] + [a];
    }
  }

  ghost predicate Keeps<S(!new), A(!new)>(step: (S, A) -> Option<S>, inv: S -> bool) {
    forall s, a :: inv(s) && step(s, a).Some? ==> inv(step(s, a).value)
  }

  /** What every step keeps, every run keeps. */
  lemma {:induction false} RunKeeps<S(!new), A(!new)>(step: (S, A) -> Option<S>, inv: S -> bool, s: S,
                                                      actions: seq<A>)
    requires Keeps(step, inv) && inv(s) && After(step, s, actions).Some?
    ensures inv(After(step, s, actions).value)
    decreases |actions|
  {
    if actions != [] {
      assert step(s, actions[0]).Some? && inv(step(s, actions[0]).value);
      RunKeeps(step, inv, step(s, actions[0]).value, actions[1..]);
    }
  }
}
