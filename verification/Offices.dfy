/** The agreements of one account together: each follows the protocol, and the billing cap decides
    over their seals. */
module Offices {
  import opened Wrappers
  import opened Calendar
  import opened Lifecycle
  import opened Rows
  import opened Policies
  import opened IdentitySteps
  import opened PartySteps
  import opened EvidenceSteps
  import opened SealSteps
  import opened ConsentSteps
  import opened Protocol
  import opened SealTheorems
  import opened StandingTheorems
  import Billing

  /** timezone.now().date() as a function of the time. */
  ghost predicate IsClock(dayOf: int -> RealDate) {
    forall a, b :: a <= b ==> !dayOf(b).Before(dayOf(a))
  }

  datatype Office = Office(now: int, files: map<nat, State>)

  datatype Call =
    | Wait(seconds: nat)
    | Open(key: nat, draft: State)
    | Serve(key: nat, action: Action)

  function EnvOf(env: Env, key: nat): Env {
    env.(agreementId := key)
  }

  /** What billing sees of an agreement. */
  function AgreementOf(dayOf: int -> RealDate, s: State): Billing.Agreement {
    Billing.Agreement(s.status, if s.sealedAt.Some? then Some(dayOf(s.sealedAt.value)) else None)
  }

  function DeskOf(dayOf: int -> RealDate, o: Office): Billing.Desk {
    Billing.Desk(dayOf(o.now), map k | k in o.files :: AgreementOf(dayOf, o.files[k]))
  }

  /** How many agreements _sealed_in_window counts in the present month. */
  function SealedThisMonth(dayOf: int -> RealDate, o: Office): nat {
    Billing.CountNow(DeskOf(dayOf, o))
  }

  /** A seal gets the verdict of check_seal_allowed. */
  predicate Possible(dayOf: int -> RealDate, plan: Billing.Plan, o: Office, a: Call) {
    match a
    case Wait(_) => true
    case Open(key, draft) => key !in o.files && IsDraft(draft) && draft.now == o.now
    case Serve(key, action) =>
      && key in o.files && (action.Elapse? ==> action.seconds == 0)
      && (action.DoSeal? ==> action.planAllows == Billing.SealAllowed(plan, DeskOf(dayOf, o).agreements, dayOf(o.now)))
  }

  ghost function Next(env: Env, o: Office, a: Call): Office {
    match a
    case Wait(seconds) =>
      Office(o.now + seconds, map k | k in o.files :: Apply(EnvOf(env, k), o.files[k], Elapse(seconds, 0)).state)
    case Open(key, draft) => o.(files := o.files[key := draft])
    case Serve(key, action) =>
      if key in o.files then o.(files := o.files[key := Apply(EnvOf(env, key), o.files[key], action).state]) else o
  }

  datatype Run = Run(states: seq<Office>, calls: seq<Call>) {
    ghost predicate Valid(env: Env, dayOf: int -> RealDate, plan: Billing.Plan) {
      && |states| == |calls| + 1 && states[0].files == map[]
      && forall i: nat :: i < |calls| ==> Follows(env, dayOf, plan, i)
    }

    ghost predicate Follows(env: Env, dayOf: int -> RealDate, plan: Billing.Plan, i: nat)
      requires i < |calls| && |states| == |calls| + 1
    {
      Possible(dayOf, plan, states[i], calls[i]) && states[i + 1] == Next(env, states[i], calls[i])
    }
  }

  // ---- The cap is about the protocol ----

  /** The seal time follows the status: a new seal sets it, ACTIVE clears it, nothing else touches it. */
  lemma SealTimeFollows(env: Env, s: State, a: Action)
    requires Standing(env.text, s)
    ensures var s' := Apply(env, s, a).state;
      if s'.status == s.status then s'.sealedAt == s.sealedAt
      else if s'.status == Sealed && s.status != ReopenRequested then s'.sealedAt == Some(s.now)
      else if s'.status == Active then s'.sealedAt.None?
      else s'.sealedAt == s.sealedAt
  {
    hide Apply, SealFacts;
    var s' := Apply(env, s, a).state;
    StatusStep(env, s, a);
    SealTimeStep(env, s, a);
    if SealHeld(s'.status) {
      if SealHeld(s.status) {
        SealedStepIsFrozen(env, s, a);
      } else {
        OnlySealSeals(env, s, a);
        SealApplied(env, s, a);
      }
    }
  }

  lemma OnlyAllowedSeals(env: Env, s: State, a: Action)
    requires !SealHeld(s.status) && SealHeld(Apply(env, s, a).state.status)
    ensures a.DoSeal? && a.planAllows
  {
    hide Apply;
    OnlySealSeals(env, s, a);
    SealApplied(env, s, a);
  }

  lemma OnlyCancelReturns(env: Env, s: State, a: Action)
    requires s.status == ReopenRequested
    ensures Apply(env, s, a).state.status == Sealed <==> a.DoCancelReopen?
  {
    hide SetParties, PatchParties, AddParty, UpdateTerms, GenerateUploadUrl, UploadEvidence, ConfirmUpload;
    hide VerifyIdentity, CreateLivenessSession, ProcessLivenessResult, ResolveManualReview, CleanupReference;
    hide ConfirmByPhone, ConfirmReopenByPhone, VerifyOtp, RequestReopenOtp;
    hide ReissueConsent, IssueCodes, AllPartiesConsented;
  }

  /** The same clock and the standing facts in every agreement of the office. */
  ghost predicate InOrder(env: Env, o: Office) {
    forall k :: k in o.files ==> o.files[k].now == o.now && Standing(env.text, o.files[k])
  }

  lemma NowKept(env: Env, s: State, a: Action)
    ensures Apply(env, s, a).state.now == s.now + if a.Elapse? then a.seconds else 0
  {
    hide SetParties, PatchParties, AddParty, UpdateTerms, GenerateUploadUrl, UploadEvidence, ConfirmUpload;
    hide VerifyIdentity, CreateLivenessSession, ProcessLivenessResult, ResolveManualReview, CleanupReference;
    hide ConfirmByPhone, ConfirmReopenByPhone, VerifyOtp, RequestReopenOtp;
    hide ReissueConsent, IssueCodes, AllPartiesConsented;
  }

  lemma DraftStands(env: Env, s: State)
    requires IsDraft(s)
    ensures Standing(env.text, s)
  {
  }

  lemma OrderStep(env: Env, dayOf: int -> RealDate, plan: Billing.Plan, o: Office, a: Call)
    requires InOrder(env, o) && Possible(dayOf, plan, o, a)
    ensures InOrder(env, Next(env, o, a))
  {
    hide Apply, Standing, IsDraft;
    var after := Next(env, o, a);
    forall k | k in after.files ensures after.files[k].now == after.now && Standing(env.text, after.files[k]) {
      if a.Wait? {
        NowKept(EnvOf(env, k), o.files[k], Elapse(a.seconds, 0));
        StandingStep(EnvOf(env, k), o.files[k], Elapse(a.seconds, 0));
      } else if a.key == k {
        if a.Open? {
          DraftStands(env, a.draft);
        } else {
          NowKept(EnvOf(env, k), o.files[k], a.action);
          StandingStep(EnvOf(env, k), o.files[k], a.action);
        }
      }
    }
  }

  /** What billing sees of a call. */
  ghost function DeskCall(env: Env, dayOf: int -> RealDate, o: Office, a: Call): Billing.Call {
    match a
    case Wait(seconds) => Billing.NextDay(dayOf(o.now + seconds))
    case Open(key, _) => Billing.Create(key)
    case Serve(key, action) =>
      if key !in o.files then Billing.Stay else
      var status := Apply(EnvOf(env, key), o.files[key], action).state.status;
      if status == o.files[key].status then Billing.Stay else Billing.Move(key, status)
  }

  lemma WaitKeepsRows(env: Env, s: State, seconds: nat)
    ensures Apply(env, s, Elapse(seconds, 0)).state == s.(now := s.now + seconds)
  {
  }

  lemma ServeSeen(env: Env, dayOf: int -> RealDate, plan: Billing.Plan, o: Office, key: nat, action: Action)
    requires InOrder(env, o) && Possible(dayOf, plan, o, Serve(key, action))
    ensures var call := DeskCall(env, dayOf, o, Serve(key, action));
      && Billing.Possible(plan, DeskOf(dayOf, o), call)
      && DeskOf(dayOf, Next(env, o, Serve(key, action))) == Billing.Next(DeskOf(dayOf, o), call)
  {
    hide Apply, Standing, Billing.SealAllowed;
    var e, s := EnvOf(env, key), o.files[key];
    var s' := Apply(e, s, action).state;
    SealTimeFollows(e, s, action);
    StatusStep(e, s, action);
    if !SealHeld(s.status) && SealHeld(s'.status) {
      OnlyAllowedSeals(e, s, action);
    }
    NowKept(e, s, action);
  }

  /** Every call of an office is one billing call, allowed by the same check, with the same result. */
  lemma CallSeen(env: Env, dayOf: int -> RealDate, plan: Billing.Plan, o: Office, a: Call)
    requires IsClock(dayOf) && InOrder(env, o) && Possible(dayOf, plan, o, a)
    ensures var call := DeskCall(env, dayOf, o, a);
      && Billing.Possible(plan, DeskOf(dayOf, o), call)
      && DeskOf(dayOf, Next(env, o, a)) == Billing.Next(DeskOf(dayOf, o), call)
  {
    hide Apply, Standing, IsDraft, Billing.SealAllowed;
    match a
    case Wait(seconds) =>
      forall k | k in o.files
        ensures Apply(EnvOf(env, k), o.files[k], Elapse(seconds, 0)).state == o.files[k].(now := o.now + seconds)
      {
        WaitKeepsRows(EnvOf(env, k), o.files[k], seconds);
      }
    case Open(key, draft) => DraftSeen(dayOf, draft);
    case Serve(key, action) => ServeSeen(env, dayOf, plan, o, key, action);
  }

  lemma DraftSeen(dayOf: int -> RealDate, draft: State)
    requires IsDraft(draft)
    ensures AgreementOf(dayOf, draft) == Billing.Agreement(Draft, None)
  {
  }

  lemma {:induction false} AlwaysInOrder(env: Env, dayOf: int -> RealDate, plan: Billing.Plan, r: Run, n: nat)
    requires r.Valid(env, dayOf, plan) && n < |r.states|
    ensures InOrder(env, r.states[n])
  {
    hide InOrder, Possible, Next;
    if n > 0 {
      AlwaysInOrder(env, dayOf, plan, r, n - 1);
      assert r.Follows(env, dayOf, plan, n - 1);
      OrderStep(env, dayOf, plan, r.states[n - 1], r.calls[n - 1]);
    } else {
      EmptyInOrder(env, r.states[0]);
    }
  }

  lemma EmptyInOrder(env: Env, o: Office)
    requires o.files == map[]
    ensures InOrder(env, o)
  {
  }

  /** Billing's view of a run. */
  ghost function Seen(env: Env, dayOf: int -> RealDate, r: Run): Billing.History
    requires |r.states| == |r.calls| + 1
  {
    Billing.History(
      seq(|r.states|, i requires 0 <= i < |r.states| => DeskOf(dayOf, r.states[i])),
      seq(|r.calls|, i requires 0 <= i < |r.calls| => DeskCall(env, dayOf, r.states[i], r.calls[i])))
  }

  /** It is a run of the billing model. */
  lemma RunSeen(env: Env, dayOf: int -> RealDate, plan: Billing.Plan, r: Run)
    requires IsClock(dayOf) && r.Valid(env, dayOf, plan)
    ensures Seen(env, dayOf, r).Valid(plan)
  {
    hide InOrder, Possible, Next, DeskOf, DeskCall, IsClock, Billing.Possible, Billing.Next;
    var h := Seen(env, dayOf, r);
    EmptySeen(dayOf, r.states[0]);
    forall i: nat | i < |h.calls| ensures h.Follows(plan, i) {
      AlwaysInOrder(env, dayOf, plan, r, i);
      assert r.Follows(env, dayOf, plan, i);
      CallSeen(env, dayOf, plan, r.states[i], r.calls[i]);
    }
  }

  lemma EmptySeen(dayOf: int -> RealDate, o: Office)
    requires o.files == map[]
    ensures DeskOf(dayOf, o).agreements == map[]
  {
  }

  /** A cancelled reopen request brings a seal of this month back while others have used up the cap. */
  predicate CancelsAtCap(dayOf: int -> RealDate, plan: Billing.Plan, o: Office, a: Call) {
    && a.Serve? && a.action.DoCancelReopen? && a.key in o.files && o.files[a.key].status == ReopenRequested
    && o.files[a.key].sealedAt.Some?
    && MonthIndex(dayOf(o.files[a.key].sealedAt.value)) == MonthIndex(dayOf(o.now))
    && SealedThisMonth(dayOf, o) == plan.cap
  }

  lemma CancelSeen(env: Env, dayOf: int -> RealDate, plan: Billing.Plan, o: Office, a: Call)
    ensures Billing.CancelsAtCap(plan, DeskOf(dayOf, o), DeskCall(env, dayOf, o, a)) <==>
      CancelsAtCap(dayOf, plan, o, a)
  {
    hide Apply, MonthIndex, Billing.Within, Billing.CountNow, Billing.MonthWindow;
    if a.Serve? && a.key in o.files && o.files[a.key].status == ReopenRequested {
      OnlyCancelReturns(EnvOf(env, a.key), o.files[a.key], a.action);
      if o.files[a.key].sealedAt.Some? {
        Billing.WindowsTile(dayOf(o.files[a.key].sealedAt.value), dayOf(o.now));
      }
    }
  }

  /** An account's agreements exceed a hard cap at some time if and only if a cancelled reopen request
      brings a seal of its month back with the cap used up. */
  lemma CapExceededExactly(env: Env, dayOf: int -> RealDate, plan: Billing.Plan, r: Run)
    requires IsClock(dayOf) && r.Valid(env, dayOf, plan) && !plan.soft
    ensures (exists n: nat :: n < |r.states| && SealedThisMonth(dayOf, r.states[n]) > plan.cap) <==>
      (exists i: nat :: i < |r.calls| && CancelsAtCap(dayOf, plan, r.states[i], r.calls[i]))
  {
    hide Possible, Next, DeskOf, DeskCall, IsClock, CancelsAtCap, Billing.CancelsAtCap, Billing.CountNow;
    RunSeen(env, dayOf, plan, r);
    var h := Seen(env, dayOf, r);
    Billing.CapExceededExactly(plan, h);
    hide Run.Valid, Billing.History.Valid;
    forall i: nat | i < |r.calls|
      ensures Billing.CancelsAtCap(plan, h.states[i], h.calls[i]) <==>
        CancelsAtCap(dayOf, plan, r.states[i], r.calls[i])
    {
      CancelSeen(env, dayOf, plan, r.states[i], r.calls[i]);
    }
    forall n: nat | n < |r.states| ensures Billing.CountNow(h.states[n]) == SealedThisMonth(dayOf, r.states[n]) {
    }
  }
}
