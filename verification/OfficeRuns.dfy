/** An account on the basic plan that ends a month with two sealed agreements. */
module OfficeRuns {
  import opened Wrappers
  import opened Calendar
  import opened Lifecycle
  import opened Rows
  import opened SealSteps
  import opened Protocol
  import opened SealTheorems
  import opened SampleRun
  import opened Offices
  import Billing

  const BASIC := "personal_basic"

  function Here(r: Run): Office
    requires r.states != []
  {
    r.states[|r.states| - 1]
  }

  lemma Call(env: Env, dayOf: int -> RealDate, plan: Billing.Plan, r: Run, a: Offices.Call) returns (after: Run)
    requires r.Valid(env, dayOf, plan) && Possible(dayOf, plan, Here(r), a)
    ensures after.Valid(env, dayOf, plan) && after.states != [] && Here(after) == Next(env, Here(r), a)
  {
    hide Next, Possible;
    after := Run(r.states + [Next(env, Here(r), a)], r.calls + [a]);
    forall i: nat | i < |after.calls| ensures after.Follows(env, dayOf, plan, i) {
      assert i < |r.calls| ==> r.Follows(env, dayOf, plan, i);
    }
  }

  /** A new agreement goes through the first n steps of a run that seals nothing. */
  lemma {:induction false} Plays(env: Env, dayOf: int -> RealDate, plan: Billing.Plan, r: Run, key: nat,
      tr: Trace, n: nat)
    returns (after: Run)
    requires r.Valid(env, dayOf, plan) && Here(r).now == 0 && key !in Here(r).files
    requires Quick(EnvOf(env, key), tr) && n < |tr.states| && tr.states[0] == Drafted()
    requires forall a <- tr.actions :: !a.DoSeal?
    ensures after.Valid(env, dayOf, plan) && after.states != []
    ensures Here(after) == Here(r).(files := Here(r).files[key := tr.states[n]])
  {
    hide Run.Valid, Apply, PhoneFlow;
    if n == 0 {
      after := Call(env, dayOf, plan, r, Open(key, tr.states[0]));
    } else {
      var before := Plays(env, dayOf, plan, r, key, tr, n - 1);
      assert tr.Follows(EnvOf(env, key), n - 1);
      after := Call(env, dayOf, plan, before, Serve(key, tr.actions[n - 1]));
    }
  }

  /** The account has only agreements that are not sealed. */
  lemma NoneSealed(dayOf: int -> RealDate, o: Office)
    requires forall k :: k in o.files ==> o.files[k].status != Sealed
    ensures Billing.SealAllowed(Billing.GetPlan(BASIC), DeskOf(dayOf, o).agreements, dayOf(o.now))
  {
    hide Billing.MonthWindow;
    assert Billing.Counted(DeskOf(dayOf, o).agreements, Billing.MonthWindow(dayOf(o.now))) == {};
  }

  lemma BothSealed(dayOf: int -> RealDate, o: Office)
    requires o.files.Keys == {1, 2}
    requires forall k :: k in o.files ==> o.files[k].status == Sealed && o.files[k].sealedAt == Some(o.now)
    ensures SealedThisMonth(dayOf, o) == 2
  {
    Billing.WindowsTile(dayOf(o.now), dayOf(o.now));
    hide Billing.MonthWindow, Billing.Within;
    assert Billing.Counted(DeskOf(dayOf, o).agreements, Billing.MonthWindow(dayOf(o.now))) == {1, 2};
  }

  /** A new agreement is drawn up, consented to and renamed. */
  lemma DrawsUp(env: Env, dayOf: int -> RealDate, plan: Billing.Plan, r: Run, key: nat) returns (after: Run, s: State)
    requires r.Valid(env, dayOf, plan) && Here(r).now == 0 && key !in Here(r).files
    ensures after.Valid(env, dayOf, plan) && after.states != []
    ensures Here(after) == Here(r).(files := Here(r).files[key := s])
    ensures Sealable(s) && s.status == Active && s.terms.title == NEW_TITLE && s.now == 0
  {
    hide Run.Valid, Apply, PhoneFlow, Sealable, Trace.Valid;
    var e := EnvOf(env, key);
    var early, tr, ready := RenamedRun(e);
    RenamedIsSealable(e, ready);
    Lengths(e, tr);
    s := Renamed(e, ready);
    after := Plays(env, dayOf, plan, r, key, tr, |tr.actions|);
  }

  /** And sealed, in an account that has no other sealed. */
  lemma SealsAnother(env: Env, dayOf: int -> RealDate, r: Run, key: nat) returns (after: Run)
    requires r.Valid(env, dayOf, Billing.GetPlan(BASIC)) && Here(r).now == 0 && key !in Here(r).files
    requires forall k :: k in Here(r).files ==> Here(r).files[k].status != Sealed
    ensures after.Valid(env, dayOf, Billing.GetPlan(BASIC)) && after.states != [] && Here(after).now == 0
    ensures Here(after).files.Keys == Here(r).files.Keys + {key} && Here(after).files - {key} == Here(r).files - {key}
    ensures var s := Here(after).files[key]; s.status == Sealed && s.sealedAt == Some(0)
  {
    hide Run.Valid, Apply, Sealable, Billing.SealAllowed, Billing.GetPlan, DeskOf;
    var drawn, s := DrawsUp(env, dayOf, Billing.GetPlan(BASIC), r, key);
    NoneSealed(dayOf, Here(drawn));
    SealsOnce(EnvOf(env, key), s);
    after := Call(env, dayOf, Billing.GetPlan(BASIC), drawn, Serve(key, DoSeal(true)));
  }

  lemma SealsOnce(env: Env, s: State)
    requires Sealable(s) && s.status == Active && s.terms.title == NEW_TITLE
    ensures Apply(env, s, DoSeal(true)).state == SealedOf(env, s)
  {
    hide Seal, Apply, SealedOf, Sealable;
    CanBeSealed(env, s);
    SealApplied(env, s, DoSeal(true));
  }

  lemma Starts(env: Env, dayOf: int -> RealDate, plan: Billing.Plan) returns (r: Run)
    ensures r.Valid(env, dayOf, plan) && r.states != [] && Here(r) == Office(0, map[])
  {
    hide Next, Possible;
    r := Run([Office(0, map[])], []);
  }

  /** Asking to reopen the one, or cancelling that, moves its status only. */
  lemma Moves(env: Env, s: State)
    ensures s.status == Sealed ==> Apply(env, s, DoRequestReopen).state == s.(status := ReopenRequested)
    ensures s.status == ReopenRequested ==> Apply(env, s, DoCancelReopen).state == s.(status := Sealed)
  {
  }

  /** The basic plan allows one seal a month.  One agreement is sealed and asked to reopen, a second one is
      sealed, and the request is cancelled: that makes two. */
  lemma CapBrokenByCancel(env: Env, dayOf: int -> RealDate) returns (r: Run)
    ensures r.Valid(env, dayOf, Billing.GetPlan(BASIC))
    ensures Billing.GetPlan(BASIC).cap == 1 && SealedThisMonth(dayOf, r.states[|r.states| - 1]) == 2
  {
    hide Run.Valid, Apply, SealedThisMonth;
    var plan := Billing.GetPlan(BASIC);
    r := Starts(env, dayOf, plan);
    r := SealsAnother(env, dayOf, r, 1);
    var s := Here(r).files[1];
    Moves(EnvOf(env, 1), s);
    r := Call(env, dayOf, plan, r, Serve(1, DoRequestReopen));
    r := SealsAnother(env, dayOf, r, 2);
    Moves(EnvOf(env, 1), s.(status := ReopenRequested));
    assert 1 in Here(r).files - {2};
    r := Call(env, dayOf, plan, r, Serve(1, DoCancelReopen));
    BothSealed(dayOf, Here(r));
  }
}
