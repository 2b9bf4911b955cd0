/** The ways on from a seal: closing for good, asking to reopen and cancelling, the older one-sided
    reopen, and the older request for consent. */
module ReturnTheorems {
  import opened Wrappers
  import opened Lifecycle
  import opened Rows
  import opened Policies
  import opened Validators
  import opened IdentitySteps
  import opened PartySteps
  import opened EvidenceSteps
  import opened SealSteps
  import opened ConsentSteps
  import opened Protocol
  import opened SealTheorems
  import opened StandingTheorems

  // ---- Closing ----

  /** A closed agreement stays closed, its terms, parties and seal as they were. */
  lemma {:induction false} ClosedForGood(env: Env, tr: Trace, i: nat, n: nat)
    requires tr.Valid(env) && i <= n < |tr.states| && tr.states[i].status == Closed
    ensures tr.states[n].status == Closed && Frozen(tr.states[i], tr.states[n])
  {
    hide Apply;
    if i < n {
      ClosedForGood(env, tr, i, n - 1);
      StatusStepAt(env, tr, n - 1);
      FrozenStepAt(env, tr, n - 1);
      FrozenTransitive(tr.states[i], tr.states[n - 1], tr.states[n]);
    } else {
      FrozenWhileHeld(env, tr, i, i);
    }
  }

  // ---- Asking to reopen and cancelling ----

  /** Whatever happens between a request and its cancellation, codes sent, tries and uploads included, the
      agreement is sealed again as it was. */
  lemma CancelledKeepsSeal(env: Env, tr: Trace, i: nat, n: nat)
    requires tr.Valid(env) && i < n < |tr.actions| && tr.states[i].status == Sealed
    requires forall j :: i < j <= n ==> tr.states[j].status == ReopenRequested
    requires tr.actions[n].DoCancelReopen?
    ensures tr.Committed(env, n) && tr.states[n + 1].status == Sealed && Frozen(tr.states[i], tr.states[n + 1])
    ensures tr.states[n + 1].revisions == tr.states[n].revisions && tr.states[n + 1].records == tr.states[n].records
  {
    assert tr.Follows(env, n);
    CancelApplied(env, tr.states[n]);
    hide Apply;
    FrozenWhileHeld(env, tr, i, n);
    FrozenStepAt(env, tr, n);
    FrozenTransitive(tr.states[i], tr.states[n], tr.states[n + 1]);
  }

  lemma CancelApplied(env: Env, s: State)
    ensures Apply(env, s, DoCancelReopen) == CancelReopen(s)
  {
  }

  /** Closing, asking to reopen and cancelling each go through in one status only, and change no more than it;
      closing notes its time. */
  lemma MovesExactly(s: State)
    ensures Close(s).outcome == Done <==> s.status == Sealed
    ensures RequestReopen(s).outcome == Done <==> s.status == Sealed
    ensures CancelReopen(s).outcome == Done <==> s.status == ReopenRequested
    ensures s.status == Sealed ==>
      && Close(s).state == s.(status := Closed, closedAt := Some(s.now))
      && RequestReopen(s).state == s.(status := ReopenRequested)
    ensures s.status == ReopenRequested ==> CancelReopen(s).state == s.(status := Sealed)
  {
  }

  // ---- The older one-sided reopen ----

  lemma ReopenApplied(env: Env, s: State)
    ensures Apply(env, s, DoReopen) == Reopen(s)
  {
  }

  /** In every run: one side alone can reopen a sealed agreement for 24 hours.  It can be edited then, and
      neither a revision nor the time of the seal is left; the hash is. */
  lemma OneSidedReopenExactly(env: Env, tr: Trace, n: nat)
    requires tr.Valid(env) && n < |tr.states|
    ensures tr.states[n].status == Sealed ==> tr.states[n].sealedAt.Some?
    ensures var s, reply := tr.states[n], Apply(env, tr.states[n], DoReopen);
      && (reply.outcome == Done <==> s.status == Sealed && s.now - s.sealedAt.value <= 24 * 3600)
      && (reply.outcome == Done ==>
            && !TermsLocked(env, reply.state) && reply.state.revisions == s.revisions
            && reply.state.sealedAt.None? && reply.state.sealHash == s.sealHash != "")
  {
    hide Apply, SealFacts, TermsLocked;
    var s := tr.states[n];
    AlwaysStanding(env, tr, n);
    ReopenApplied(env, s);
    TermsLockedExactly(env, Reopen(s).state);
    if s.status == Sealed {
      SealedHasHash(env, s);
    }
  }

  lemma SealedHasHash(env: Env, s: State)
    requires Standing(env.text, s) && s.status == Sealed
    ensures s.sealHash != ""
  {
  }

  ghost predicate OneSidedAt(env: Env, tr: Trace, i: nat)
    requires tr.Valid(env)
  {
    i < |tr.actions| && tr.actions[i].DoReopen? && tr.Committed(env, i)
  }

  lemma HashStep(env: Env, s: State, a: Action)
    requires !SealHeld(Apply(env, s, a).state.status) && Apply(env, s, a).state.sealHash != ""
    requires SealHeld(s.status) || s.sealHash == ""
    ensures a.DoReopen? && Apply(env, s, a).outcome == Done
  {
    hide SetParties, PatchParties, AddParty, UpdateTerms, GenerateUploadUrl, UploadEvidence, ConfirmUpload;
    hide VerifyIdentity, CreateLivenessSession, ProcessLivenessResult, ResolveManualReview, CleanupReference;
    hide ConfirmByPhone, VerifyOtp, RequestReopenOtp, ReissueConsent, IssueCodes, AllPartiesConsented, Judge, ValidNow;
  }

  lemma HashKept(env: Env, s: State, a: Action)
    requires !SealHeld(s.status) && !SealHeld(Apply(env, s, a).state.status)
    ensures Apply(env, s, a).state.sealHash == s.sealHash
    ensures !(a.DoReopen? && Apply(env, s, a).outcome == Done)
  {
    hide SetParties, PatchParties, AddParty, UpdateTerms, GenerateUploadUrl, UploadEvidence, ConfirmUpload;
    hide VerifyIdentity, CreateLivenessSession, ProcessLivenessResult, ResolveManualReview, CleanupReference;
    hide ConfirmByPhone, VerifyOtp, RequestOtp, RequestReopenOtp, ReissueConsent, ValidNow, PayloadNow, Judge;
  }

  /** A one-sided reopen at step i, and no seal held since. */
  ghost predicate UnsealedSince(env: Env, tr: Trace, i: nat, n: nat)
    requires tr.Valid(env)
  {
    && i < n < |tr.states| && OneSidedAt(env, tr, i)
    && forall j :: i < j <= n ==> !SealHeld(tr.states[j].status)
  }

  lemma {:induction false} LeftHashFrom(env: Env, tr: Trace, n: nat) returns (i: nat)
    requires tr.Valid(env) && n < |tr.states|
    requires !SealHeld(tr.states[n].status) && tr.states[n].sealHash != ""
    ensures UnsealedSince(env, tr, i, n)
  {
    hide Apply;
    assert tr.Follows(env, n - 1);
    if SealHeld(tr.states[n - 1].status) {
      i := n - 1;
      HashStep(env, tr.states[i], tr.actions[i]);
    } else {
      HashKept(env, tr.states[n - 1], tr.actions[n - 1]);
      i := LeftHashFrom(env, tr, n - 1);
    }
  }

  lemma {:induction false} HashStays(env: Env, tr: Trace, i: nat, n: nat)
    requires tr.Valid(env) && UnsealedSince(env, tr, i, n)
    ensures tr.states[n].sealHash != ""
  {
    hide Apply;
    if n == i + 1 {
      assert tr.Follows(env, i);
      OneSidedReopenExactly(env, tr, i);
      assert Apply(env, tr.states[i], DoReopen).outcome == Done;
    } else {
      HashStays(env, tr, i, n - 1);
      assert tr.Follows(env, n - 1);
      HashKept(env, tr.states[n - 1], tr.actions[n - 1]);
    }
  }

  /** An agreement that holds no seal has a hash if and only if a one-sided reopen left it there and no
      seal was held since. */
  lemma LeftHashExactly(env: Env, tr: Trace, n: nat)
    requires tr.Valid(env) && n < |tr.states| && !SealHeld(tr.states[n].status)
    ensures tr.states[n].sealHash != "" <==> exists i: nat :: UnsealedSince(env, tr, i, n)
  {
    hide Apply, UnsealedSince;
    if tr.states[n].sealHash != "" {
      var i := LeftHashFrom(env, tr, n);
    }
    if i: nat :| UnsealedSince(env, tr, i, n) {
      HashStays(env, tr, i, n);
    }
  }

  // ---- The older request for consent ----

  /** It goes through exactly from DRAFT and ACTIVE, with two parties or more. */
  lemma RequestsExactly(s: State)
    ensures RequestConsent(s).outcome == Done <==> s.status in {Draft, Active} && |s.parties| >= 2
    ensures RequestConsent(s).outcome == Done ==> RequestConsent(s).state == s.(status := PendingConsent)
  {
  }

  /** The request issues no codes: the agreement can be sealed straight after it exactly if the parties' latest
      records were granted before. */
  lemma SealAfterRequestExactly(env: Env, s: State)
    requires RequestConsent(s).outcome == Done
    ensures Seal(env, RequestConsent(s).state, true).outcome == Done <==>
      HasConfirmedEvidence(s.evidence) && AllPartiesConsented(s) && ValidNow(env, s)
  {
    hide AgreementValid, EveryoneConsented, PayloadOf, HasConfirmedEvidence;
  }
}
