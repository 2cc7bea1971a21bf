/** Runs of a state machine given by its steps. */
module Runs {

  /** Each action leads from its state to the next one. */
  ghost predicate Follows<S(!new), A(!new)>(step: (S, A, S) -> bool, states: seq<S>, actions: seq<A>) {
    && |states| == |actions| + 1
    && forall i :: 0 <= i < |actions| ==> step(states[i], actions[i], states[i + 1])
  }

  lemma StepAt<S(!new), A(!new)>(step: (S, A, S) -> bool, states: seq<S>, actions: seq<A>, i: nat)
    requires Follows(step, states, actions) && i < |actions|
    ensures step(states[i], actions[i], states[i + 1])
  {
  }

  /** Some run leads from one state to the other. */
  ghost predicate Leads<S(!new), A(!new)>(step: (S, A, S) -> bool, s: S, t: S) {
    exists states: seq<S>, actions: seq<A> :: Follows(step, states, actions) && states[0] == s && states[|actions|] == t
  }

  lemma LeadsToItself<S(!new), A(!new)>(step: (S, A, S) -> bool, s: S)
    ensures Leads(step, s, s)
  {
    var none: seq<A> := [];
    assert Follows(step, [s], none);
  }

  lemma LeadsOn<S(!new), A(!new)>(step: (S, A, S) -> bool, s: S, t: S, a: A, u: S)
    requires Leads(step, s, t) && step(t, a, u)
    ensures Leads(step, s, u)
  {
    var states: seq<S>, actions: seq<A> :| Follows(step, states, actions) && states[0] == s && states[|actions|] == t;
    var longer := states + [u];
    assert Follows(step, longer, actions + [a]);
    assert longer[0] == s && longer[|actions + [a]|] == u;
  }

  /** What the steps of a run keep, as long as they are of the allowed kind, holds along it. */
  lemma {:induction false} KeptWhile<S(!new), A(!new)>(
      step: (S, A, S) -> bool, kept: S -> bool, allowed: (S, A) -> bool, states: seq<S>, actions: seq<A>, i: nat)
    requires Follows(step, states, actions) && i <= |actions| && kept(states[0])
    requires forall j :: 0 <= j < i ==> allowed(states[j], actions[j])
    requires forall s, a, u :: kept(s) && allowed(s, a) && step(s, a, u) ==> kept(u)
    ensures kept(states[i])
  {
    if i > 0 {
      KeptWhile(step, kept, allowed, states, actions, i - 1);
      assert allowed(states[i - 1], actions[i - 1]) && step(states[i - 1], actions[i - 1], states[i - 1 + 1]);
    }
  }

  /** What every step keeps holds along every run that starts with it. */
  lemma KeptAlong<S(!new), A(!new)>(
      step: (S, A, S) -> bool, kept: S -> bool, states: seq<S>, actions: seq<A>, i: nat)
    requires Follows(step, states, actions) && i <= |actions| && kept(states[0])
    requires forall s, a, u :: kept(s) && step(s, a, u) ==> kept(u)
    ensures kept(states[i])
  {
    KeptWhile(step, kept, (s: S, a: A) => true, states, actions, i);
  }
}
