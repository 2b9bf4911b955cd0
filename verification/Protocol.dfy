/** The agreement protocol: every service call on one agreement as an atomic step, and its runs. */
module Protocol {
  import opened Lifecycle
  import opened Rows
  import opened IdentitySteps
  import opened PartySteps
  import opened EvidenceSteps
  import opened SealSteps
  import opened ConsentSteps

  datatype Action =
    // time passes, and other agreements' rows use up primary keys
    | Elapse(seconds: nat, otherRows: nat)
    // editing
    | DoUpdateDraft(edit: TermsEdit)
    | DoUpdateActive(edit: TermsEdit)
    | DoAddParty(role: string, displayName: string, identityExists: bool)
    | DoSetParties(initiatorKeys: set<string>, inputs: seq<PartyInput>)
    | DoPatchParties(patches: seq<PartyPatch>)
    // evidence
    | DoGenerateUploadUrl(request: UploadRequest)
    | DoConfirmUpload(confirmation: Confirmation)
    | DoUploadEvidence(party: nat, fileHash: string, fileValid: bool)
    // consent
    | DoRequestOtp(codes: seq<string>)
    | DoConfirmByPhone(phone: string, code: string)
    | DoRequestConsent
    | DoReissueConsent(codes: seq<string>)
    | DoVerifyOtp(record: nat, code: string)
    | DoSyncConsent
    // sealing
    | DoSeal(planAllows: bool)
    | DoClose
    // reopening
    | DoRequestReopen
    | DoRequestReopenOtp(codes: seq<string>)
    | DoConfirmReopenByPhone(phone: string, code: string)
    | DoCancelReopen
    | DoReopen
    // identity verification
    | DoVerifyIdentity(party: nat, reading: Reading)
    | DoCreateLiveness(party: nat, session: string, allowed: bool)
    | DoProcessLiveness(party: nat, result: LivenessResult)
    | DoResolveReview(party: nat, approved: bool)
    | DoCleanupReference(party: nat, deleted: bool)

  ghost function Apply(env: Env, s: State, a: Action): Reply {
    match a
    case Elapse(seconds, otherRows) => Reply(s.(now := s.now + seconds, nextPk := s.nextPk + otherRows), Done)
    case DoUpdateDraft(edit) => UpdateTerms(s, Draft, edit)
    case DoUpdateActive(edit) => UpdateTerms(s, Active, edit)
    case DoAddParty(role, displayName, identityExists) => AddParty(s, role, displayName, identityExists)
    case DoSetParties(keys, inputs) => SetParties(env, s, keys, inputs)
    case DoPatchParties(patches) => PatchParties(env, s, patches)
    case DoGenerateUploadUrl(request) => GenerateUploadUrl(s, request)
    case DoConfirmUpload(c) => ConfirmUpload(env, s, c)
    case DoUploadEvidence(party, fileHash, fileValid) => UploadEvidence(s, party, fileHash, fileValid)
    case DoRequestOtp(codes) => RequestOtp(env, s, codes)
    case DoConfirmByPhone(phone, code) => ConfirmByPhone(env, s, phone, code)
    case DoRequestConsent => RequestConsent(s)
    case DoReissueConsent(codes) => ReissueConsent(env, s, codes)
    case DoVerifyOtp(record, code) => VerifyOtp(env, s, record, code)
    case DoSyncConsent => SyncConsent(s)
    case DoSeal(planAllows) => Seal(env, s, planAllows)
    case DoClose => Close(s)
    case DoRequestReopen => RequestReopen(s)
    case DoRequestReopenOtp(codes) => RequestReopenOtp(env, s, codes)
    case DoConfirmReopenByPhone(phone, code) => ConfirmReopenByPhone(env, s, phone, code)
    case DoCancelReopen => CancelReopen(s)
    case DoReopen => Reopen(s)
    case DoVerifyIdentity(party, reading) => VerifyIdentity(env, s, party, reading)
    case DoCreateLiveness(party, session, allowed) => CreateLivenessSession(env, s, party, session, allowed)
    case DoProcessLiveness(party, result) => ProcessLivenessResult(env, s, party, result)
    case DoResolveReview(party, approved) => ResolveManualReview(s, party, approved)
    case DoCleanupReference(party, deleted) => CleanupReference(s, party, deleted)
  }

  /** Every call but the older consent paths: adding a party without a phone, moving the status
      without codes, and granting by record key. */
  predicate PhoneFlow(a: Action) {
    !(a.DoAddParty? || a.DoRequestConsent? || a.DoReissueConsent? || a.DoVerifyOtp? || a.DoSyncConsent?)
  }

  /** create_draft */
  predicate IsDraft(s: State) {
    && s.status == Draft
    && s.sealedAt.None? && s.sealHash == "" && s.closedAt.None?
    && s.parties == [] && s.evidence == [] && s.records == map[] && s.verifications == map[]
    && s.revisions == [] && s.consentTries == map[] && s.reopenTries == map[]
  }

  /** A run: `states[i + 1]` is what `actions[i]` makes of `states[i]`. */
  datatype Trace = Trace(states: seq<State>, actions: seq<Action>) {
    ghost predicate Valid(env: Env) {
      && |states| == |actions| + 1
      && IsDraft(states[0])
      && forall i: nat :: i < |actions| ==> Follows(env, i)
    }

    ghost predicate Follows(env: Env, i: nat)
      requires i < |actions| && |states| == |actions| + 1
    {
      states[i + 1] == Apply(env, states[i], actions[i]).state
    }

    ghost predicate Phone() {
      forall a <- actions :: PhoneFlow(a)
    }

    /** Step i ran and committed. */
    ghost predicate Committed(env: Env, i: nat)
      requires i < |actions| && |states| == |actions| + 1
    {
      Apply(env, states[i], actions[i]).outcome == Done
    }
  }
}
