/** identity/services.py: the methods that overwrite a party's verification row step by step. */
module IdentityService {
  import opened Wrappers
  import opened Text
  import opened Rows
  import opened PartyIdentity
  import opened IdentitySteps
  import opened AgreementDb

  /** ensure_party_verification */
  method EnsurePartyVerification(t: Alphabet, db: Db, p: Party) returns (v: Verification)
    modifies db`verifications
    ensures v == EnsureCheck(t, old(db.verifications), p)
    ensures db.verifications == old(db.verifications)[p.pk := v]
  {
    if p.pk !in db.verifications {
      db.verifications := db.verifications[p.pk := FreshCheck(t, p)];
    }
    v := db.verifications[p.pk];
  }

  /** reset_party_verification */
  method ResetPartyVerification(t: Alphabet, db: Db, p: Party)
    modifies db`verifications
    ensures db.verifications == WithReset(t, old(db.verifications), p)
  {
    var v := EnsurePartyVerification(t, db, p);
    v := v.(status := Pending);
    v := v.(enteredPin := NormalizePin(t, p.idNumber), enteredName := p.displayName, ocrPin := "");
    v := v.(frontId := None, backId := None, selfieId := None);
    v := v.(codes := [], verifiedAt := None);
    db.verifications := db.verifications[p.pk := v];
  }

  /** The tests of _run_ocr_verification, which append their failure codes to one list. */
  method CollectCodes(enteredPin: string, r: Reading) returns (codes: seq<string>)
    requires r.Read?
    ensures codes == ReadingCodes(enteredPin, r)
  {
    codes := [];
    if !r.cardMarkers {
      codes := codes + ["ghana_card_markers_missing"];
    }
    if r.ocrPin == "" {
      codes := codes + ["ocr_pin_missing"];
    } else if r.ocrPin != enteredPin {
      codes := codes + ["ocr_pin_mismatch"];
    }
    if !r.nameMatches {
      codes := codes + ["ocr_name_mismatch"];
    }
    if r.faceConfidence <= 0.0 {
      codes := codes + ["selfie_face_missing"];
    } else if r.similarity < 80.0 {
      codes := codes + ["face_match_failed"];
    } else if r.similarity < 90.0 {
      codes := codes + ["face_match_manual_review"];
    }
  }

  /** _run_ocr_verification and the handlers around its call. */
  method RunOcrVerification(enteredPin: string, keysPresent: bool, r: Reading) returns (outcome: Option<CardOutcome>)
    ensures outcome == CardResult(enteredPin, keysPresent, r)
  {
    if !keysPresent || r.Crashed? {
      return Some(CardOutcome(Failed, ["verification_unexpected_failure"], ""));
    }
    if r.Unavailable? {
      return if r.softFail then Some(CardOutcome(Pending, ["verification_unavailable"], "")) else None;
    }
    if r.qualityFailures != [] {
      return Some(CardOutcome(Failed, r.qualityFailures, ""));
    }
    var codes := CollectCodes(enteredPin, r);
    if codes != [] {
      var reviewOnly := codes == ["face_match_manual_review"];
      return Some(CardOutcome(if reviewOnly then ManualReview else Failed, codes, r.ocrPin));
    }
    return Some(CardOutcome(Verified, [], r.ocrPin));
  }

  /** verify_party_identity on the party's row: what it waits for, then the reading's verdict. */
  method Decide(t: Alphabet, p: Party, items: seq<Evidence>, before: Verification, reading: Reading, now: int)
    returns (after: Option<Verification>)
    ensures after == VerifiedRow(t, p, items, before, reading, now)
  {
    var v := before;
    var front := SlotItem(p, items, "front");
    var back := SlotItem(p, items, "back");
    var selfie := SlotItem(p, items, "selfie");
    var livenessPassed := v.livenessStatus == "passed" && v.referenceKey != "";
    var faceKey := if livenessPassed then v.referenceKey else if selfie.Some? then selfie.value.fileKey else "";
    var faceId := if livenessPassed then None else PkOf(selfie);
    if front.None? || back.None? || faceKey == "" {
      v := v.(status := Pending, codes := [], verifiedAt := None);
      v := v.(frontId := PkOf(front), backId := PkOf(back), selfieId := faceId);
      return Some(v);
    }
    v := v.(status := Processing, codes := [], verifiedAt := None);
    v := v.(enteredPin := NormalizePin(t, p.idNumber), enteredName := p.displayName);
    v := v.(frontId := PkOf(front), backId := PkOf(back), selfieId := faceId);
    var outcome := RunOcrVerification(v.enteredPin, front.value.fileKey != "" && back.value.fileKey != "", reading);
    if outcome.None? {
      return None;
    }
    v := v.(status := outcome.value.status, ocrPin := outcome.value.ocrPin, codes := outcome.value.codes);
    v := v.(verifiedAt := if v.status == Verified then Some(now) else None);
    return Some(v);
  }

  /** verify_party_identity */
  method VerifyPartyIdentity(env: Env, db: Db, pk: nat, reading: Reading) returns (outcome: Outcome)
    modifies db`verifications
    ensures Reply(db.View(), outcome) == VerifyIdentity(env, old(db.View()), pk, reading)
  {
    hide VerifiedRow, EnsureCheck;
    var found := PartyAt(db.parties, pk);
    if found.None? {
      return Rejected(NoSuchParty);
    }
    var savepoint := db.verifications;
    var v := EnsurePartyVerification(env.text, db, found.value);
    var after := Decide(env.text, found.value, db.evidence, v, reading, db.now);
    if after.None? {
      db.verifications := savepoint;
      return Rejected(ServiceUnavailable);
    }
    db.verifications := db.verifications[pk := after.value];
    return Done;
  }

  /** create_liveness_session */
  method StartLiveness(env: Env, db: Db, pk: nat, session: string, allowed: bool) returns (outcome: Outcome)
    modifies db`verifications
    ensures Reply(db.View(), outcome) == CreateLivenessSession(env, old(db.View()), pk, session, allowed)
  {
    var found := PartyAt(db.parties, pk);
    if found.None? {
      return Rejected(NoSuchParty);
    }
    if !allowed {
      return Rejected(LivenessCooldown);
    }
    var v := EnsurePartyVerification(env.text, db, found.value);
    v := v.(livenessSession := session, livenessStatus := "pending");
    if v.status == ManualReview {
      v := v.(status := Pending, codes := []);
    }
    db.verifications := db.verifications[pk := v];
    return Done;
  }

  /** The fields process_liveness_result sets on the row. */
  method JudgeLiveness(p: Party, before: Verification, decision: Decision, hasReference: bool, deleteAt: int)
    returns (v: Verification)
    ensures v == LivenessRow(p, before, decision, hasReference, deleteAt)
  {
    v := before;
    v := v.(livenessStatus := match decision
              case Passed => "passed"
              case NeedsReview => "manual_review"
              case _ => "failed");
    if (decision == Passed || decision == NeedsReview) && hasReference {
      v := v.(referenceKey := "agreements/" + p.role + "_liveness_reference.jpg");
      v := v.(referenceDeleteAt := Some(deleteAt));
    }
    if decision == NeedsReview {
      v := v.(status := ManualReview, codes := ["liveness_manual_review"]);
    } else if decision == Passed && v.status == ManualReview {
      v := v.(status := Pending, codes := []);
    }
  }

  /** process_liveness_result */
  method ProcessLiveness(env: Env, db: Db, pk: nat, r: LivenessResult) returns (outcome: Outcome)
    modifies db`verifications
    ensures Reply(db.View(), outcome) == ProcessLivenessResult(env, old(db.View()), pk, r)
  {
    hide LivenessRow, Classify, EnsureCheck, CardsReady, WithReset;
    var found := PartyAt(db.parties, pk);
    if found.None? {
      return Rejected(NoSuchParty);
    }
    var p := found.value;
    var v := EnsureCheck(env.text, db.verifications, p);
    if v.livenessSession == "" {
      return Rejected(NoLivenessSession);
    }
    var decision := Classify(env, r);
    if decision.None? {
      return Rejected(ServiceUnavailable);
    }
    if decision.value == InProgress {
      return Done;
    }
    v := JudgeLiveness(p, v, decision.value, r.hasReference, db.now + env.retention);
    db.verifications := db.verifications[pk := v];
    if decision.value == Passed && v.status != Verified && CardsReady(db.evidence, p.role) {
      ResetPartyVerification(env.text, db, p);
    }
    return Done;
  }

  /** resolve_manual_review */
  method ResolveReview(db: Db, pk: nat, approved: bool) returns (outcome: Outcome)
    modifies db`verifications
    ensures Reply(db.View(), outcome) == ResolveManualReview(old(db.View()), pk, approved)
  {
    if pk !in db.verifications {
      return Rejected(NoSuchParty);
    }
    var v := db.verifications[pk];
    var codes := v.codes;
    if codes !in [["liveness_manual_review"], ["face_match_manual_review"]] || v.status != ManualReview {
      return Rejected(NotReviewable);
    }
    if codes == ["liveness_manual_review"] && v.referenceKey == "" {
      return Rejected(NotReviewable);
    }
    if codes == ["face_match_manual_review"] && !(v.frontId.Some? && v.backId.Some?) {
      return Rejected(NotReviewable);
    }
    if approved && codes == ["liveness_manual_review"] {
      v := v.(livenessStatus := "passed", status := Pending, codes := []);
    } else if approved {
      v := v.(status := Verified, codes := [], verifiedAt := Some(db.now));
    } else {
      v := v.(status := Failed, codes := ["manual_review_rejected"], verifiedAt := None);
    }
    db.verifications := db.verifications[pk := v];
    return Done;
  }
}
