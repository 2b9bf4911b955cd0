/** Runs of the protocol made longer, call by call. */
module Runs {
  import opened Rows
  import opened Protocol

  function Last(tr: Trace): State
    requires tr.states != []
  {
    tr.states[|tr.states| - 1]
  }

  predicate Prolongs(tr: Trace, after: Trace) {
    tr.states <= after.states && tr.actions <= after.actions
  }

  lemma Extend(env: Env, tr: Trace, a: Action) returns (after: Trace)
    requires tr.Valid(env)
    ensures after.Valid(env) && Prolongs(tr, after) && |after.states| == |tr.states| + 1
    ensures after.actions == tr.actions + [a] && after.states == tr.states + [Apply(env, Last(tr), a).state]
  {
    hide Apply;
    after := Trace(tr.states + [Apply(env, Last(tr), a).state], tr.actions + [a]);
    forall i: nat | i < |after.actions| ensures after.Follows(env, i) {
      assert i < |tr.actions| ==> tr.Follows(env, i);
    }
  }
}
