/** Consent_hardening.md promises that an agreement is sealed only after every party consented.  When
    the parties consented to what is sealed, exactly. */
module CoverageTheorems {
  import opened Wrappers
  import opened Text
  import opened Lifecycle
  import opened Rows
  import opened Policies
  import opened IdentitySteps
  import opened PartySteps
  import opened EvidenceSteps
  import opened SealSteps
  import opened ConsentSteps
  import opened Validators
  import opened Protocol
  import opened Integrity
  import opened SealTheorems
  import opened ConsentTheorems
  import opened RoundTheorems

  /** Step k issued the latest round of codes before state n. */
  ghost predicate LastRound(env: Env, tr: Trace, k: nat, n: nat)
    requires |tr.states| == |tr.actions| + 1
  {
    && k < n < |tr.states| && IssuesRound(env, tr, k)
    && forall j: nat :: k < j < n ==> !IssuesRound(env, tr, j)
  }

  /** Some round was issued for exactly the terms and parties of state n, and everyone granted it. */
  ghost predicate ConsentCovers(env: Env, tr: Trace, n: nat)
    requires |tr.states| == |tr.actions| + 1 && n < |tr.states|
  {
    exists k: nat :: CoveredBy(env, tr, k, n)
  }

  ghost predicate CoveredBy(env: Env, tr: Trace, k: nat, n: nat)
    requires |tr.states| == |tr.actions| + 1 && n < |tr.states|
  {
    && k < n && IssuesRound(env, tr, k) && SameTerms(tr.states[k], tr.states[n])
    && ConsentedInRound(tr.states[k], tr.states[k + 1], tr.states[n])
  }

  predicate SameTerms(a: State, b: State) {
    a.terms == b.terms && a.parties == b.parties
  }

  // ---- What is left of a round ----

  /** Without a new round, the consent records of b are a's, some granted since; none is gone unless all
      parties were replaced by new ones. */
  ghost predicate LeftOf(a: State, b: State) {
    && a.nextPk <= b.nextPk
    && (forall r :: IsConsent(b.records, r) ==> IsConsent(a.records, r) && Progress(a.records[r], b.records[r]))
    && (forall p <- b.parties :: p.pk in PartyPks(a.parties) || a.nextPk <= p.pk)
    && (NoneGone(a, b) || AllNew(a, b))
  }

  ghost predicate NoneGone(a: State, b: State) {
    forall r :: IsConsent(a.records, r) ==> IsConsent(b.records, r)
  }

  ghost predicate AllNew(a: State, b: State) {
    forall p <- b.parties :: a.nextPk <= p.pk
  }

  lemma LeftOfTransitive(a: State, b: State, c: State)
    requires LeftOf(a, b) && LeftOf(b, c)
    ensures LeftOf(a, c)
  {
    forall r | IsConsent(c.records, r) ensures IsConsent(a.records, r) && Progress(a.records[r], c.records[r]) {
      assert Progress(b.records[r], c.records[r]) && Progress(a.records[r], b.records[r]);
    }
    forall p | p in c.parties ensures p.pk in PartyPks(a.parties) || a.nextPk <= p.pk {
    }
    if AllNew(a, b) {
      forall p | p in c.parties ensures a.nextPk <= p.pk {
        assert p.pk in PartyPks(b.parties) || b.nextPk <= p.pk;
      }
    }
  }

  lemma SameRowsLeft(s: State, s': State)
    requires s.nextPk <= s'.nextPk && PartyPks(s'.parties) <= PartyPks(s.parties)
    requires forall r :: IsConsent(s.records, r) ==> IsConsent(s'.records, r)
    requires forall r :: IsConsent(s'.records, r) ==> IsConsent(s.records, r) && Progress(s.records[r], s'.records[r])
    ensures LeftOf(s, s')
  {
  }

  lemma ReplacingLeaves(env: Env, s: State, keys: set<string>, inputs: seq<PartyInput>)
    requires Sound(s)
    ensures LeftOf(s, SetParties(env, s, keys, inputs).state)
  {
    hide SetFault, NewChecks, IsConsent;
    SettingKeepsRecords(env, s, keys, inputs);
    var reply := SetParties(env, s, keys, inputs);
    if reply.outcome == Done {
      assert forall r :: !IsConsent(reply.state.records, r) by { NoneInEmpty(reply.state.records); }
      assert AllNew(s, reply.state);
    } else {
      SameRowsLeft(s, reply.state);
    }
  }

  lemma NoneInEmpty(records: map<nat, Record>)
    requires records == map[]
    ensures forall r :: !IsConsent(records, r)
  {
  }

  lemma ReopenRoundLeaves(env: Env, s: State, codes: seq<string>)
    requires Sound(s)
    ensures LeftOf(s, RequestReopenOtp(env, s, codes).state)
  {
    RecordsKeyed(s);
    hide Sound, LeftOf;
    var reply := RequestReopenOtp(env, s, codes);
    assert reply.state.parties == s.parties;
    SameRowsLeft(s, reply.state);
  }

  lemma ConfirmsLeave(env: Env, s: State, phone: string, code: string)
    ensures LeftOf(s, ConfirmByPhone(env, s, phone, code).state)
    ensures LeftOf(s, ConfirmReopenByPhone(env, s, phone, code).state)
  {
    hide ConfirmByPhone, ConfirmReopenByPhone, Judge;
    SameRowsLeft(s, ConfirmByPhone(env, s, phone, code).state);
    SameRowsLeft(s, ConfirmReopenByPhone(env, s, phone, code).state);
  }

  lemma StepLeaves(env: Env, s: State, a: Action)
    requires Sound(s) && PhoneFlow(a)
    requires !(a.DoRequestOtp? && Apply(env, s, a).outcome == Done)
    ensures LeftOf(s, Apply(env, s, a).state)
  {
    hide SetParties, RequestReopenOtp, ConfirmByPhone, ConfirmReopenByPhone, IssueCodes, AllPartiesConsented;
    hide VerifyIdentity, CreateLivenessSession, ProcessLivenessResult;
    hide ResolveManualReview, CleanupReference, ConfirmUpload;
    hide LeftOf, PatchParties, RequestOtp, PartiesKeyed, EvidenceKeyed, RecordsKept, ChecksKept;
    match a
    case DoSetParties(keys, inputs) => ReplacingLeaves(env, s, keys, inputs);
    case DoRequestReopenOtp(codes) => ReopenRoundLeaves(env, s, codes);
    case DoConfirmByPhone(phone, code) => ConfirmsLeave(env, s, phone, code);
    case DoConfirmReopenByPhone(phone, code) => ConfirmsLeave(env, s, phone, code);
    case DoPatchParties(patches) =>
      PatchingKeepsPks(env, s, patches);
      SameRowsLeft(s, Apply(env, s, a).state);
    case DoRequestOtp(_) => LeftOfItself(s);
    case _ => OtherCallsLeave(env, s, a);
  }

  lemma OtherCallsLeave(env: Env, s: State, a: Action)
    requires !EditsRecords(a) && !EditsParties(a)
    ensures LeftOf(s, Apply(env, s, a).state)
  {
    hide Apply, LeftOf;
    Frame(env, s, a);
    SameRowsLeft(s, Apply(env, s, a).state);
  }

  lemma StepLeavesAt(env: Env, tr: Trace, i: nat)
    requires tr.Valid(env) && tr.Phone() && i < |tr.actions| && !IssuesRound(env, tr, i)
    ensures LeftOf(tr.states[i], tr.states[i + 1])
  {
    hide Apply, LeftOf, PhoneFlow;
    AlwaysSound(env, tr, i);
    hide Sound;
    assert tr.Follows(env, i) && tr.actions[i] in tr.actions;
    StepLeaves(env, tr.states[i], tr.actions[i]);
  }

  lemma {:induction false} LeftSince(env: Env, tr: Trace, i: nat, n: nat)
    requires tr.Valid(env) && tr.Phone() && i <= n < |tr.states|
    requires forall j: nat :: i <= j < n ==> !IssuesRound(env, tr, j)
    ensures LeftOf(tr.states[i], tr.states[n])
  {
    hide Apply, LeftOf, IssuesRound;
    if i == n {
      LeftOfItself(tr.states[i]);
    } else {
      LeftSince(env, tr, i, n - 1);
      StepLeavesAt(env, tr, n - 1);
      LeftOfTransitive(tr.states[i], tr.states[n - 1], tr.states[n]);
    }
  }

  lemma LeftOfItself(s: State)
    ensures LeftOf(s, s)
  {
    SameRowsLeft(s, s);
  }

  // ---- Every seal has a last round ----

  lemma {:induction false} LastRoundBefore(env: Env, tr: Trace, n: nat) returns (k: nat)
    requires tr.Valid(env) && tr.Phone() && n < |tr.states| && tr.states[n].status != Draft
    ensures LastRound(env, tr, k, n)
  {
    hide Apply, PhoneFlow;
    if IssuesRound(env, tr, n - 1) {
      k := n - 1;
    } else {
      StatusStepAt(env, tr, n - 1);
      LeavingDraft(env, tr, n - 1);
      k := LastRoundBefore(env, tr, n - 1);
    }
  }

  lemma LeavingDraft(env: Env, tr: Trace, i: nat)
    requires tr.Valid(env) && tr.Phone() && i < |tr.actions| && !IssuesRound(env, tr, i)
    requires tr.states[i + 1].status != Draft
    ensures tr.states[i].status != Draft
  {
    hide Apply, PhoneFlow;
    StatusStepAt(env, tr, i);
    if tr.states[i + 1].status == PendingConsent {
      PendingStepAt(env, tr, i);
    }
  }

  // ---- Exactly when consent covers the seal ----

  /** At a seal every consent record is granted. */
  lemma SealSeesGrants(env: Env, tr: Trace, n: nat)
    requires tr.Valid(env) && tr.Phone() && SealsAt(env, tr, n)
    ensures AllGranted(tr.states[n].records)
  {
    ConsentRounds(env, tr, n);
    if tr.states[n].status == PendingConsent {
      SealRestsOnGrants(env, tr, n);
    }
  }

  lemma RoundGave(env: Env, tr: Trace, k: nat)
    requires tr.Valid(env) && tr.Phone() && k < |tr.actions| && IssuesRound(env, tr, k)
    ensures OneConsentEach(tr.states[k].parties, tr.states[k + 1].records) && tr.states[k].parties != []
    ensures forall p <- tr.states[k].parties :: p.pk < tr.states[k].nextPk
    ensures tr.states[k].nextPk <= tr.states[k + 1].nextPk
  {
    ConsentRounds(env, tr, k + 1);
    AlwaysSound(env, tr, k);
    RoundFrameAt(env, tr, k);
    assert tr.Follows(env, k);
    RequestApplied(env, tr.states[k], tr.actions[k]);
    hide ConsentInv, Sound;
    RoundPends(env, tr.states[k], tr.actions[k].codes);
    OneEachIn(tr.states[k + 1]);
    SoundParties(tr.states[k]);
  }

  lemma RoundPends(env: Env, s: State, codes: seq<string>)
    requires RequestOtp(env, s, codes).outcome == Done
    ensures var s' := RequestOtp(env, s, codes).state;
      s'.status == PendingConsent && |s.parties| >= 2 && s.nextPk <= s'.nextPk
  {
    hide IssueCodes, AllPartiesConsented;
  }

  lemma OneEachIn(s: State)
    requires ConsentInv(s) && s.status == PendingConsent
    ensures OneConsentEach(s.parties, s.records)
  {
  }

  lemma SoundParties(s: State)
    requires Sound(s)
    ensures forall p <- s.parties :: p.pk < s.nextPk
  {
  }

  lemma UnchangedIsCovered(env: Env, tr: Trace, k: nat, n: nat)
    requires tr.Valid(env) && tr.Phone() && SealsAt(env, tr, n) && LastRound(env, tr, k, n)
    requires SameTerms(tr.states[k], tr.states[n])
    ensures CoveredBy(env, tr, k, n)
  {
    hide Apply, AllGranted, MadeIn, GrantedInRound, Sound, PhoneFlow;
    var u, v, s := tr.states[k], tr.states[k + 1], tr.states[n];
    RoundGave(env, tr, k);
    LeftSince(env, tr, k + 1, n);
    SealSeesGrants(env, tr, n);
    AlwaysSound(env, tr, n);
    SoundKeepsRecords(s);
    assert s.parties[0] in s.parties;
    assert !AllNew(v, s);
    forall p | p in s.parties
      ensures exists r :: GrantedInRound(u, v, s, p.pk, r) && OnlyConsentOf(s.records, p.pk, r)
    {
      var r :| IsConsent(v.records, r) && v.records[r].party == p.pk;
      RoundIsNewAt(env, tr, k, r);
      GrantLeft(u, v, s, r);
      OnlyOneLeft(v, s, p.pk, r);
    }
  }

  lemma GrantLeft(u: State, v: State, s: State, r: nat)
    requires IsConsent(v.records, r) && IsConsent(s.records, r) && Progress(v.records[r], s.records[r])
    requires AllGranted(s.records) && RecordsKept(s) && MadeIn(u, v, r)
    ensures GrantedInRound(u, v, s, v.records[r].party, r)
  {
    assert RecordKept(s, r, s.records[r]);
  }

  lemma OnlyOneLeft(v: State, s: State, party: nat, r: nat)
    requires LeftOf(v, s) && IsConsent(v.records, r) && v.records[r].party == party
    requires forall k, l ::
      IsConsent(v.records, k) && IsConsent(v.records, l) && v.records[k].party == v.records[l].party ==> k == l
    ensures OnlyConsentOf(s.records, party, r)
  {
    forall l | IsConsent(s.records, l) && s.records[l].party == party ensures l == r {
      assert Progress(v.records[l], s.records[l]);
    }
  }

  lemma {:induction false} KeysGrow(env: Env, tr: Trace, i: nat, n: nat)
    requires tr.Valid(env) && i <= n < |tr.states|
    ensures tr.states[i].nextPk <= tr.states[n].nextPk
  {
    if i < n {
      hide Apply;
      KeysGrow(env, tr, i, n - 1);
      assert tr.Follows(env, n - 1);
      Frame(env, tr.states[n - 1], tr.actions[n - 1]);
    }
  }

  /** Only the last round can cover a state: it replaced all records of earlier ones. */
  lemma CoveredByLast(env: Env, tr: Trace, k: nat, l: nat, n: nat)
    requires tr.Valid(env) && tr.Phone() && n < |tr.states|
    requires LastRound(env, tr, l, n) && CoveredBy(env, tr, k, n)
    ensures k == l
  {
    hide Apply, PhoneFlow, Sound;
    if k < l {
      RoundGave(env, tr, k);
      LeftSince(env, tr, l + 1, n);
      KeysGrow(env, tr, k + 1, l);
      var p := tr.states[n].parties[0];
      assert p in tr.states[n].parties;
      var r :| GrantedInRound(tr.states[k], tr.states[k + 1], tr.states[n], p.pk, r);
      assert IsConsent(tr.states[n].records, r);
      RoundIsNewAt(env, tr, l, r);
    }
  }

  /** Every seal of a phone-flow run has a last round of codes before it, and the parties consented to
      what is sealed exactly when the terms and the parties are still those that round was issued for. */
  lemma ConsentCoversExactly(env: Env, tr: Trace, n: nat) returns (k: nat)
    requires tr.Valid(env) && tr.Phone() && SealsAt(env, tr, n)
    ensures LastRound(env, tr, k, n)
    ensures ConsentCovers(env, tr, n) <==> SameTerms(tr.states[k], tr.states[n])
  {
    hide Apply, PhoneFlow, CoveredBy;
    assert tr.states[n].status != Draft by { SealNotFromDraft(env, tr.states[n], tr.actions[n]); }
    k := LastRoundBefore(env, tr, n);
    if SameTerms(tr.states[k], tr.states[n]) {
      UnchangedIsCovered(env, tr, k, n);
    }
    if ConsentCovers(env, tr, n) {
      var l: nat :| CoveredBy(env, tr, l, n);
      CoveredByLast(env, tr, l, k, n);
      CoveredTerms(env, tr, l, n);
    }
  }

  lemma CoveredTerms(env: Env, tr: Trace, k: nat, n: nat)
    requires |tr.states| == |tr.actions| + 1 && n < |tr.states| && CoveredBy(env, tr, k, n)
    ensures SameTerms(tr.states[k], tr.states[n])
  {
  }

  lemma SealNotFromDraft(env: Env, s: State, a: Action)
    requires a.DoSeal? && Apply(env, s, a).outcome == Done
    ensures s.status != Draft
  {
    SealApplied(env, s, a);
  }

  /** The terms can change between consent and seal: an ACTIVE agreement that can be sealed can be sealed
      with another title as well, whatever its consent records are. */
  lemma EditedStillSeals(env: Env, s: State, title: string, records: map<nat, Record>)
    requires s.status == Active && Seal(env, s, true).outcome == Done && !Blank(env.text, title)
    ensures var edit := TermsEdit(Some(title), None, None, None);
      var edited := Apply(env, s, DoUpdateActive(edit)).state;
      && edited.terms.title == title && edited.records == s.records
      && Seal(env, edited.(records := records), true).outcome == Done
  {
    hide CardsValid, PhotoMinimumMet, IdentityShown, PayloadOf;
    var edited := Apply(env, s, DoUpdateActive(TermsEdit(Some(title), None, None, None))).state;
    assert edited == s.(terms := s.terms.(title := title));
    assert ValidNow(env, edited);
    hide Apply, AgreementValid;
    ActiveSealIgnoresConsent(env, edited, records, true);
  }
}
