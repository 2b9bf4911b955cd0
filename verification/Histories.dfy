/** Runs of the payment service made longer, call by call. */
module Histories {
  import opened Text
  import opened Payments

  function Last(h: History): Books
    requires h.states != []
  {
    h.states[|h.states| - 1]
  }

  predicate Prolongs(h: History, after: History) {
    h.states <= after.states && h.calls <= after.calls
  }

  lemma Do(t: Alphabet, h: History, a: Call) returns (after: History)
    requires h.Valid(t)
    ensures after.Valid(t) && Prolongs(h, after)
    ensures after.calls == h.calls + [a] && Last(after) == Next(t, Last(h), a)
  {
    after := History(h.states + [Next(t, Last(h), a)], h.calls + [a]);
    forall i: nat | i < |after.calls| ensures after.Follows(t, i) {
      assert i < |h.calls| ==> h.Follows(t, i);
    }
  }
}
