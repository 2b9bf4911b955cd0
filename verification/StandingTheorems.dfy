/** Facts that hold in every reachable state, over all service calls: when a seal time is set, and
    what every sealed agreement still satisfies. */
module StandingTheorems {
  import opened Text
  import opened Lifecycle
  import opened Rows
  import opened Policies
  import opened Validators
  import opened PartySteps
  import opened EvidenceSteps
  import opened IdentitySteps
  import opened SealSteps
  import opened ConsentSteps
  import opened Protocol
  import opened Integrity
  import opened SealTheorems

  /** What a sealed agreement keeps of the validation it passed. */
  ghost predicate SealFacts(t: Alphabet, s: State) {
    && s.sealHash != ""
    && !Blank(t, s.terms.title) && !Blank(t, s.terms.scenario)
    && |s.parties| >= 2 && RequiredRoles(s.terms.scenario) <= PartyRoles(s.parties)
    && CardsValid(t, s.parties)
    && PhotoMinimumMet(s.terms.scenario, s.evidence)
    && HasConfirmedEvidence(s.evidence)
  }

  ghost predicate Standing(t: Alphabet, s: State) {
    && (s.sealedAt.Some? <==> SealHeld(s.status))
    && (s.sealedAt.Some? ==> s.sealedAt.value <= s.now)
    && s.status != Archived && s.status != Status.Expired
    && (s.status != Draft ==> |s.parties| >= 2)
    && (SealHeld(s.status) ==> SealFacts(t, s))
  }

  lemma {:induction false} CountGrows(a: seq<Evidence>, b: seq<Evidence>, prefix: string)
    requires EvidenceGrows(a, b)
    ensures CountConfirmed(a, prefix) <= CountConfirmed(b, prefix)
    decreases |b|
  {
    if b != [] {
      if |a| < |b| {
        CountGrows(a, b[..|b| - 1], prefix);
      } else {
        CountGrows(a[..|b| - 1], b[..|b| - 1], prefix);
      }
    }
  }

  lemma FactsSurvive(t: Alphabet, u: State, s: State)
    requires SealFacts(t, u) && Frozen(u, s)
    ensures SealFacts(t, s)
  {
    CountGrows(u.evidence, s.evidence, "vehicle_photo");
    CountGrows(u.evidence, s.evidence, "property_photo");
    var e :| e in u.evidence && e.confirmed;
    var i :| 0 <= i < |u.evidence| && u.evidence[i] == e;
    assert s.evidence[i].confirmed;
  }

  lemma SealTimeStep(env: Env, s: State, a: Action)
    requires s.sealedAt.Some? <==> SealHeld(s.status)
    requires s.sealedAt.Some? ==> s.sealedAt.value <= s.now
    ensures var s' := Apply(env, s, a).state;
      (s'.sealedAt.Some? <==> SealHeld(s'.status)) && (s'.sealedAt.Some? ==> s'.sealedAt.value <= s'.now)
  {
    hide SetParties, PatchParties, AddParty, UpdateTerms, GenerateUploadUrl, UploadEvidence, ConfirmUpload;
    hide VerifyIdentity, CreateLivenessSession, ProcessLivenessResult, ResolveManualReview, CleanupReference;
    hide ConfirmByPhone, ConfirmReopenByPhone, VerifyOtp, RequestOtp, RequestReopenOtp, ReissueConsent, CanSeal;
    hide ValidNow, PayloadNow, CompleteBilateralReopen, AllPartiesConsented;
    var s' := Apply(env, s, a).state;
    Frame(env, s, a);
    StatusStep(env, s, a);
    if a.DoRequestOtp? {
      RoundUnseals(env, s, a.codes);
    } else if a.DoConfirmReopenByPhone? {
      ReopenClears(env, s, a.phone, a.code);
    }
  }

  lemma RoundUnseals(env: Env, s: State, codes: seq<string>)
    ensures var s' := RequestOtp(env, s, codes).state;
      s'.status == s.status || (s'.status == PendingConsent && !SealHeld(s.status))
  {
    hide IssueCodes, AllPartiesConsented;
  }

  lemma ReopenClears(env: Env, s: State, phone: string, code: string)
    ensures var s' := ConfirmReopenByPhone(env, s, phone, code).state;
      if s'.status == s.status then s'.sealedAt == s.sealedAt else s'.sealedAt.None? && s'.status == Active
  {
  }

  lemma PartyCountStep(env: Env, s: State, a: Action)
    requires s.status != Draft ==> |s.parties| >= 2
    ensures var s' := Apply(env, s, a).state; s'.status != Draft ==> |s'.parties| >= 2
  {
    var s' := Apply(env, s, a).state;
    Frame(env, s, a);
    StatusStep(env, s, a);
    if a.DoPatchParties? && s' != s {
      PatchKeepsSlots(env.text, s.parties, s.verifications, a.patches);
    } else if s.status == Draft && s'.status != Draft {
      assert s'.parties == s.parties;
    }
  }

  lemma StandingStep(env: Env, s: State, a: Action)
    requires Standing(env.text, s)
    ensures Standing(env.text, Apply(env, s, a).state)
  {
    hide Apply, SealFacts, Frozen;
    var s' := Apply(env, s, a).state;
    SealTimeStep(env, s, a);
    PartyCountStep(env, s, a);
    StatusStep(env, s, a);
    if SealHeld(s'.status) {
      if SealHeld(s.status) {
        SealedStepIsFrozen(env, s, a);
        FactsSurvive(env.text, s, s');
      } else {
        OnlySealSeals(env, s, a);
        SealApplied(env, s, a);
        SealingChecks(env, s, a.planAllows);
      }
    }
  }

  lemma SealingChecks(env: Env, s: State, planAllows: bool)
    requires Seal(env, s, planAllows).outcome == Done
    ensures SealFacts(env.text, Seal(env, s, planAllows).state)
  {
  }

  lemma StandingStepAt(env: Env, tr: Trace, i: nat)
    requires tr.Valid(env) && i < |tr.actions| && Standing(env.text, tr.states[i])
    ensures Standing(env.text, tr.states[i + 1])
  {
    assert tr.Follows(env, i);
    StandingStep(env, tr.states[i], tr.actions[i]);
  }

  /** In every run, at every state. */
  lemma {:induction false} AlwaysStanding(env: Env, tr: Trace, n: nat)
    requires tr.Valid(env) && n < |tr.states|
    ensures Standing(env.text, tr.states[n])
  {
    if n > 0 {
      AlwaysStanding(env, tr, n - 1);
      StandingStepAt(env, tr, n - 1);
    }
  }
}
