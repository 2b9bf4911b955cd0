/** What a seal given from PENDING_CONSENT rests on: the latest round of codes, issued for the very
    terms and parties that are sealed, and granted in time by everyone. */
module RoundTheorems {
  import opened Lifecycle
  import opened Rows
  import opened Policies
  import opened IdentitySteps
  import opened PartySteps
  import opened EvidenceSteps
  import opened SealSteps
  import opened ConsentSteps
  import opened Protocol
  import opened Integrity
  import opened SealTheorems
  import opened ConsentTheorems

  /** Record b is record a, or a granted since. */
  ghost predicate Progress(a: Record, b: Record) {
    b == a || b == a.(granted := true, grantedAt := b.grantedAt)
  }

  /** Same terms, same parties and same consent records up to grants. */
  ghost predicate SameRound(a: State, b: State) {
    && b.terms == a.terms && b.parties == a.parties
    && (forall k :: IsConsent(b.records, k) <==> IsConsent(a.records, k))
    && (forall k :: IsConsent(b.records, k) ==> Progress(a.records[k], b.records[k]))
  }

  lemma SameRoundTransitive(a: State, b: State, c: State)
    requires SameRound(a, b) && SameRound(b, c)
    ensures SameRound(a, c)
  {
    forall k | IsConsent(c.records, k) ensures Progress(a.records[k], c.records[k]) {
      assert Progress(b.records[k], c.records[k]) && Progress(a.records[k], b.records[k]);
    }
  }

  /** While consent is pending, only a new round changes more than grants. */
  lemma PendingStep(env: Env, s: State, a: Action)
    requires PhoneFlow(a) && s.status == PendingConsent && Apply(env, s, a).state.status == PendingConsent
    requires !(a.DoRequestOtp? && Apply(env, s, a).outcome == Done)
    ensures SameRound(s, Apply(env, s, a).state)
  {
    hide ConfirmByPhone, ConfirmReopenByPhone, IssueCodes, Judge, Seal, RecordsWithout, SetFault, PatchAll;
    hide VerifyIdentity, CreateLivenessSession, ProcessLivenessResult;
    hide ResolveManualReview, CleanupReference, ConfirmUpload;
    Frame(env, s, a);
    if a.DoConfirmByPhone? {
      assert Apply(env, s, a) == ConfirmByPhone(env, s, a.phone, a.code);
    } else if a.DoConfirmReopenByPhone? {
      assert Apply(env, s, a) == ConfirmReopenByPhone(env, s, a.phone, a.code);
    } else {
      assert Apply(env, s, a).state.records == s.records;
    }
  }

  lemma PendingBegins(env: Env, s: State, a: Action)
    requires PhoneFlow(a) && s.status != PendingConsent && Apply(env, s, a).state.status == PendingConsent
    ensures a.DoRequestOtp? && Apply(env, s, a).outcome == Done
  {
    hide IssueCodes, ConfirmByPhone, ConfirmReopenByPhone, Judge, Seal;
  }

  /** Step k issued a round of codes. */
  ghost predicate IssuesRound(env: Env, tr: Trace, k: nat)
    requires |tr.states| == |tr.actions| + 1 && k < |tr.actions|
  {
    tr.actions[k].DoRequestOtp? && tr.Committed(env, k)
  }

  /** Step k issued the latest round of codes before state n, and consent was pending ever since. */
  ghost predicate LatestRound(env: Env, tr: Trace, k: nat, n: nat)
    requires |tr.states| == |tr.actions| + 1
  {
    && k < n < |tr.states| && IssuesRound(env, tr, k)
    && (forall j: nat :: k < j < n ==> !IssuesRound(env, tr, j))
    && (forall j: nat :: k < j <= n ==> tr.states[j].status == PendingConsent)
  }

  lemma PendingStepAt(env: Env, tr: Trace, i: nat)
    requires tr.Valid(env) && tr.Phone() && i < |tr.actions| && tr.states[i + 1].status == PendingConsent
    ensures tr.states[i].status == PendingConsent && !IssuesRound(env, tr, i) ==>
      SameRound(tr.states[i], tr.states[i + 1])
    ensures tr.states[i].status != PendingConsent ==> IssuesRound(env, tr, i)
  {
    hide Apply, SameRound;
    assert tr.Follows(env, i) && tr.actions[i] in tr.actions;
    if tr.states[i].status != PendingConsent {
      PendingBegins(env, tr.states[i], tr.actions[i]);
    } else if !IssuesRound(env, tr, i) {
      PendingStep(env, tr.states[i], tr.actions[i]);
    }
  }

  /** A pending agreement got its round from some step, and nothing but grants happened to it. */
  lemma {:induction false} RoundOf(env: Env, tr: Trace, n: nat) returns (k: nat)
    requires tr.Valid(env) && tr.Phone() && n < |tr.states| && tr.states[n].status == PendingConsent
    ensures LatestRound(env, tr, k, n)
    ensures SameRound(tr.states[k + 1], tr.states[n])
  {
    hide Apply, SameRound;
    PendingStepAt(env, tr, n - 1);
    if IssuesRound(env, tr, n - 1) {
      k := n - 1;
      assert SameRound(tr.states[n], tr.states[n]) by { SameRoundReflexive(tr.states[n]); }
    } else {
      k := RoundOf(env, tr, n - 1);
      SameRoundTransitive(tr.states[k + 1], tr.states[n - 1], tr.states[n]);
    }
  }

  lemma SameRoundReflexive(s: State)
    ensures SameRound(s, s)
  {
  }

  /** Record r was made by a round issued in state u, which left v. */
  ghost predicate MadeIn(u: State, v: State, r: nat) {
    && r !in u.records && u.nextPk <= r < v.nextPk && IsConsent(v.records, r)
    && v.records[r].createdAt == u.now && v.records[r].expiresAt == u.now + OTP_LIFE_SECONDS
  }

  /** A round replaces every consent record by new ones. */
  lemma RoundIsNew(env: Env, s: State, codes: seq<string>, r: nat)
    requires RecordsKept(s) && RequestOtp(env, s, codes).outcome == Done
    requires IsConsent(RequestOtp(env, s, codes).state.records, r)
    ensures MadeIn(s, RequestOtp(env, s, codes).state, r)
  {
    hide AllPartiesConsented, RecordKept;
    RecordsKeyed(s);
    assert r in s.records ==> r < s.nextPk;
    assert r in NewPks(s.nextPk, |s.parties|);
  }

  lemma RoundIsNewAt(env: Env, tr: Trace, k: nat, r: nat)
    requires tr.Valid(env) && k < |tr.actions| && IssuesRound(env, tr, k)
    requires IsConsent(tr.states[k + 1].records, r)
    ensures MadeIn(tr.states[k], tr.states[k + 1], r)
    ensures tr.states[k + 1].terms == tr.states[k].terms && tr.states[k + 1].parties == tr.states[k].parties
  {
    AlwaysSound(env, tr, k);
    hide Sound, IsConsent, MadeIn;
    assert tr.Follows(env, k);
    RequestApplied(env, tr.states[k], tr.actions[k]);
    RoundIsNew(env, tr.states[k], tr.actions[k].codes, r) by { hide *; SoundKeepsRecords(tr.states[k]); }
  }

  lemma SoundKeepsRecords(s: State)
    requires Sound(s)
    ensures RecordsKept(s)
  {
  }

  lemma RequestApplied(env: Env, s: State, a: Action)
    requires a.DoRequestOtp?
    ensures Apply(env, s, a) == RequestOtp(env, s, a.codes)
  {
  }

  /** The party granted, in time, a record that the round issued between u and v. */
  ghost predicate GrantedInRound(u: State, v: State, s: State, party: nat, r: nat) {
    && MadeIn(u, v, r)
    && r in s.records && s.records[r].party == party && s.records[r].purpose == ForConsent
    && s.records[r].otpHash == v.records[r].otpHash && s.records[r].expiresAt == v.records[r].expiresAt
    && s.records[r].granted && s.records[r].grantedAt.Some?
    && u.now <= s.records[r].grantedAt.value <= s.records[r].expiresAt
  }

  /** Every party granted exactly one record of the round, and has no other. */
  ghost predicate ConsentedInRound(u: State, v: State, s: State) {
    forall p <- s.parties ::
      exists r :: GrantedInRound(u, v, s, p.pk, r) && OnlyConsentOf(s.records, p.pk, r)
  }

  ghost predicate OnlyConsentOf(records: map<nat, Record>, party: nat, r: nat) {
    forall l :: IsConsent(records, l) && records[l].party == party ==> l == r
  }

  /** What Seal checked and the run keeps. */
  lemma SealRestsOnGrants(env: Env, tr: Trace, n: nat)
    requires tr.Valid(env) && tr.Phone() && SealsAt(env, tr, n) && tr.states[n].status == PendingConsent
    ensures AllGranted(tr.states[n].records) && OneConsentEach(tr.states[n].parties, tr.states[n].records)
    ensures |tr.states[n].parties| >= 2 && RecordsKept(tr.states[n])
  {
    ConsentRounds(env, tr, n);
    AlwaysSound(env, tr, n);
    SealApplied(env, tr.states[n], tr.actions[n]);
    hide AllGranted, OneConsentEach, RecordsKept, PartiesKeyed;
    hide EvidenceKeyed, ChecksKept, AllPartiesConsented, OpenUnique;
    SealedMeansGranted(env, tr.states[n], tr.actions[n].planAllows);
  }

  lemma GrantFromRound(u: State, v: State, s: State, r: nat)
    requires IsConsent(s.records, r) && SameRound(v, s) && AllGranted(s.records) && RecordsKept(s)
    requires MadeIn(u, v, r)
    ensures GrantedInRound(u, v, s, s.records[r].party, r)
  {
    assert RecordKept(s, r, s.records[r]);
  }

  /** A seal given from PENDING_CONSENT: the latest round of codes was issued for the terms and
      parties being sealed, and every party granted its record of that round before it expired. */
  lemma SealedFromPending(env: Env, tr: Trace, n: nat) returns (k: nat)
    requires tr.Valid(env) && tr.Phone() && SealsAt(env, tr, n) && tr.states[n].status == PendingConsent
    ensures LatestRound(env, tr, k, n)
    ensures tr.states[n].terms == tr.states[k].terms && tr.states[n].parties == tr.states[k].parties
    ensures |tr.states[n].parties| >= 2
    ensures ConsentedInRound(tr.states[k], tr.states[k + 1], tr.states[n])
  {
    hide Apply, Sound, RecordsKept, AllGranted, MadeIn, GrantedInRound, LatestRound;
    k := RoundOf(env, tr, n);
    assert k < n && IssuesRound(env, tr, k) by { LatestRoundIsRound(env, tr, k, n); }
    SealRestsOnGrants(env, tr, n);
    var u, v, s := tr.states[k], tr.states[k + 1], tr.states[n];
    assert v.terms == u.terms && v.parties == u.parties by { RoundFrameAt(env, tr, k); }
    forall p | p in s.parties
      ensures exists r :: GrantedInRound(u, v, s, p.pk, r) && OnlyConsentOf(s.records, p.pk, r)
    {
      var r :| IsConsent(s.records, r) && s.records[r].party == p.pk;
      RoundIsNewAt(env, tr, k, r);
      GrantFromRound(u, v, s, r);
      assert OnlyConsentOf(s.records, p.pk, r);
    }
  }

  lemma LatestRoundIsRound(env: Env, tr: Trace, k: nat, n: nat)
    requires |tr.states| == |tr.actions| + 1 && LatestRound(env, tr, k, n)
    ensures k < n < |tr.states| && IssuesRound(env, tr, k)
  {
  }

  lemma RoundFrameAt(env: Env, tr: Trace, k: nat)
    requires tr.Valid(env) && k < |tr.actions| && IssuesRound(env, tr, k)
    ensures tr.states[k + 1].terms == tr.states[k].terms && tr.states[k + 1].parties == tr.states[k].parties
  {
    assert tr.Follows(env, k);
    RequestApplied(env, tr.states[k], tr.actions[k]);
  }

  // ---- What a seal given from ACTIVE rests on ----

  /** Sealing an ACTIVE agreement never looks at a consent record. */
  lemma ActiveSealIgnoresConsent(env: Env, s: State, records: map<nat, Record>, planAllows: bool)
    requires s.status == Active
    ensures Seal(env, s, planAllows).outcome == Seal(env, s.(records := records), planAllows).outcome
  {
    var t := s.(records := records);
    assert CanSeal(t) <==> CanSeal(s);
    assert ValidNow(env, t) <==> ValidNow(env, s);
  }

  /** Before the first revision a phone-flow agreement seals from ACTIVE only: the last confirmation
      leaves PENDING_CONSENT at once, and the terms are editable again before the seal. */
  lemma FirstSealIsFromActive(env: Env, tr: Trace, n: nat)
    requires tr.Valid(env) && tr.Phone() && SealsAt(env, tr, n) && tr.states[n].revisions == []
    ensures tr.states[n].status == Active
  {
    ConsentRounds(env, tr, n);
    SealApplied(env, tr.states[n], tr.actions[n]);
    if tr.states[n].status == PendingConsent {
      SealRestsOnGrants(env, tr, n);
    }
  }
}
