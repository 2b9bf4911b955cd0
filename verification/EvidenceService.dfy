/** evidence/services.py: the methods that create upload slots and confirm uploads, in place. */
module EvidenceService {
  import opened Text
  import opened Lifecycle
  import opened Rows
  import opened IdentitySteps
  import opened EvidenceSteps
  import opened AgreementDb
  import opened IdentityService

  /** generate_upload_url */
  method CreateUploadSlot(db: Db, r: UploadRequest) returns (outcome: Outcome)
    modifies db`evidence, db`nextPk
    ensures Reply(db.View(), outcome) == GenerateUploadUrl(old(db.View()), r)
  {
    if !IsKind(r.kind) || r.mime !in UPLOAD_TYPES || !(0 < r.size <= MAX_FILE_SIZE) {
      return Rejected(BadEvidence);
    }
    if db.status !in {Draft, PendingConsent, Active} {
      return Rejected(WrongStatus);
    }
    if !RoleFits(db.parties, r.kind) {
      return Rejected(RoleMismatch);
    }
    if IsIdentityEvidence(r.kind) && r.mime !in IMAGE_TYPES {
      return Rejected(BadEvidence);
    }
    if !r.storageUp {
      return Rejected(StorageUnavailable);
    }
    db.evidence := db.evidence + [Evidence(db.nextPk, r.kind, r.mime, r.size, r.fileKey, r.checksum, false)];
    db.nextPk := db.nextPk + 1;
    return Done;
  }

  /** _maybe_queue_verification_after_upload */
  method MaybeQueueVerification(t: Alphabet, db: Db, p: Party)
    modifies db`verifications
    ensures db.verifications == AfterUpload(t, db.evidence, old(db.verifications), p)
  {
    if p.pk in db.verifications && db.verifications[p.pk].status == Verified {
      return;
    }
    var livenessPassed := p.pk in db.verifications && db.verifications[p.pk].livenessStatus == "passed"
      && db.verifications[p.pk].referenceKey != "";
    if CardsReady(db.evidence, p.role) && (livenessPassed || SlotConfirmed(db.evidence, p.role + "_selfie")) {
      ResetPartyVerification(t, db, p);
    }
  }

  lemma OneMatch(matches: set<nat>, i: nat)
    requires |matches| <= 1 && i in matches
    ensures matches == {i}
  {
    assert matches == {i} + (matches - {i});
  }

  /** confirm_upload */
  method ConfirmPendingUpload(env: Env, db: Db, c: Confirmation) returns (outcome: Outcome)
    modifies db`evidence, db`verifications
    ensures Reply(db.View(), outcome) == ConfirmUpload(env, old(db.View()), c)
  {
    var matches := Awaiting(db.evidence, c);
    if |matches| > 1 {
      return Rejected(MultipleRows);
    }
    if matches == {} {
      if AlreadyConfirmed(db.evidence, c) {
        return Done;
      }
      return Rejected(NotPending);
    }
    var i :| i in matches;
    OneMatch(matches, i);
    var item := db.evidence[i];
    if !RoleFits(db.parties, c.kind) {
      return Rejected(RoleMismatch);
    }
    if !MatchesRequest(item, c) {
      return Rejected(UploadMismatch);
    }
    if c.stored.Unreachable? {
      return Rejected(StorageUnavailable);
    }
    if !MatchesStored(item, c.stored) {
      return Rejected(UploadMismatch);
    }
    db.evidence := db.evidence[i := item.(confirmed := true)];
    if IsIdentityEvidence(c.kind) {
      var owner := PartySlot(db.parties, RolePrefix(c.kind));
      if owner.Some? {
        MaybeQueueVerification(env.text, db, owner.value);
      }
    }
    return Done;
  }
}
