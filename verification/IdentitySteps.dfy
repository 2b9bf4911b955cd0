/** identity/services.py as state changes of a party's verification row. */
module IdentitySteps {
  import opened Wrappers
  import opened Text
  import opened Rows
  import opened PartyIdentity

  /** ensure_party_verification: the row a party starts with. */
  function FreshCheck(t: Alphabet, p: Party): Verification {
    Verification(Pending, NormalizePin(t, p.idNumber), p.displayName, "", None, None, None,
                 [], None, "", "", "", None)
  }

  function EnsureCheck(t: Alphabet, checks: map<nat, Verification>, p: Party): Verification {
    if p.pk in checks then checks[p.pk] else FreshCheck(t, p)
  }

  /** reset_party_verification: everything but the liveness fields starts over. */
  function ResetCheck(t: Alphabet, v: Verification, p: Party): Verification {
    v.(status := Pending, enteredPin := NormalizePin(t, p.idNumber), enteredName := p.displayName,
       ocrPin := "", frontId := None, backId := None, selfieId := None, codes := [], verifiedAt := None)
  }

  function WithReset(t: Alphabet, checks: map<nat, Verification>, p: Party): map<nat, Verification> {
    checks[p.pk := ResetCheck(t, EnsureCheck(t, checks, p), p)]
  }

  function PartyAt(parties: seq<Party>, pk: nat): (r: Option<Party>)
    ensures r.Some? ==> r.value in parties && r.value.pk == pk
    ensures r.None? ==> forall p <- parties :: p.pk != pk
  {
    if parties == [] then None
    else if parties[0].pk == pk then Some(parties[0])
    else PartyAt(parties[1..], pk)
  }

  /** At most the row of one of the parties changed. */
  ghost predicate OnlyRow(before: map<nat, Verification>, after: map<nat, Verification>, pk: nat, parties: seq<Party>) {
    && before - {pk} == after - {pk}
    && (pk in after ==> pk in before || pk in PartyPks(parties))
  }

  // ---- Card verification ----

  /** What storage, Vision and Rekognition report during one run. */
  datatype Reading =
    | Unavailable(softFail: bool)
    | Crashed
    | Read(qualityFailures: seq<string>, cardMarkers: bool, ocrPin: string, nameMatches: bool,
           faceConfidence: real, similarity: real)

  /** The failure codes of a readable card, in the order they are appended. */
  function ReadingCodes(enteredPin: string, r: Reading): seq<string>
    requires r.Read?
  {
    (if r.cardMarkers then [] else ["ghana_card_markers_missing"])
    + (if r.ocrPin == "" then ["ocr_pin_missing"]
       else if r.ocrPin != enteredPin then ["ocr_pin_mismatch"] else [])
    + (if r.nameMatches then [] else ["ocr_name_mismatch"])
    + (if r.faceConfidence <= 0.0 then ["selfie_face_missing"]
       else if r.similarity < 80.0 then ["face_match_failed"]
       else if r.similarity < 90.0 then ["face_match_manual_review"] else [])
  }

  /** IdentityVerificationOutcome, the fields that are kept. */
  datatype CardOutcome = CardOutcome(status: CheckStatus, codes: seq<string>, ocrPin: string)

  /** _run_ocr_verification together with the handlers around it; None is a re-raised outage. */
  function CardResult(enteredPin: string, keysPresent: bool, r: Reading): Option<CardOutcome> {
    if !keysPresent || r.Crashed? then Some(CardOutcome(Failed, ["verification_unexpected_failure"], ""))
    else if r.Unavailable? then
      if r.softFail then Some(CardOutcome(Pending, ["verification_unavailable"], "")) else None
    else if r.qualityFailures != [] then Some(CardOutcome(Failed, r.qualityFailures, ""))
    else
      var codes := ReadingCodes(enteredPin, r);
      if codes == [] then Some(CardOutcome(Verified, [], r.ocrPin))
      else if codes == ["face_match_manual_review"] then Some(CardOutcome(ManualReview, codes, r.ocrPin))
      else Some(CardOutcome(Failed, codes, r.ocrPin))
  }

  function SlotItem(p: Party, items: seq<Evidence>, side: string): Option<Evidence> {
    if IsIdentityRequired(p.role) then LatestFor(items, p.role, side) else None
  }

  function PkOf(e: Option<Evidence>): Option<nat> {
    if e.Some? then Some(e.value.pk) else None
  }

  /** The row verify_party_identity leaves for the party; None is a re-raised outage. */
  function VerifiedRow(t: Alphabet, p: Party, items: seq<Evidence>, v: Verification, reading: Reading, now: int)
    : Option<Verification>
  {
    var front := SlotItem(p, items, "front");
    var back := SlotItem(p, items, "back");
    var selfie := SlotItem(p, items, "selfie");
    var live := v.livenessStatus == "passed" && v.referenceKey != "";
    var faceKey := if live then v.referenceKey else if selfie.Some? then selfie.value.fileKey else "";
    var faceId := if live then None else PkOf(selfie);
    if front.None? || back.None? || faceKey == "" then
      Some(v.(status := Pending, codes := [], frontId := PkOf(front), backId := PkOf(back),
              selfieId := faceId, verifiedAt := None))
    else
      var enteredPin := NormalizePin(t, p.idNumber);
      var result := CardResult(enteredPin, front.value.fileKey != "" && back.value.fileKey != "", reading);
      if result.None? then None else
      var o := result.value;
      Some(v.(status := o.status, enteredPin := enteredPin, enteredName := p.displayName,
              ocrPin := o.ocrPin, frontId := PkOf(front), backId := PkOf(back), selfieId := faceId,
              codes := o.codes, verifiedAt := if o.status == Verified then Some(now) else None))
  }

  /** verify_party_identity */
  ghost function VerifyIdentity(env: Env, s: State, pk: nat, reading: Reading): (reply: Reply)
    ensures reply.state == s.(verifications := reply.state.verifications)
    ensures reply.outcome.Rejected? ==> reply.state == s
    ensures OnlyRow(s.verifications, reply.state.verifications, pk, s.parties)
  {
    var found := PartyAt(s.parties, pk);
    if found.None? then Reject(s, NoSuchParty) else
    var v := EnsureCheck(env.text, s.verifications, found.value);
    var row := VerifiedRow(env.text, found.value, s.evidence, v, reading, s.now);
    if row.None? then Reject(s, ServiceUnavailable)
    else Reply(s.(verifications := s.verifications[pk := row.value]), Done)
  }

  // ---- Liveness ----

  datatype Decision = Expired | InProgress | NotPassed | Passed | NeedsReview

  datatype LivenessResult = LivenessResult(awsStatus: string, confidence: real, hasReference: bool)

  /** _classify_liveness_result; None is its RuntimeError on a bad configuration. */
  function Classify(env: Env, r: LivenessResult): Option<Decision> {
    if r.awsStatus == "EXPIRED" then Some(Expired)
    else if r.awsStatus == "CREATED" || r.awsStatus == "IN_PROGRESS" then Some(InProgress)
    else if r.awsStatus != "SUCCEEDED" then Some(NotPassed)
    else if !(0.0 <= env.livenessReview <= env.livenessPass <= 100.0) then None
    else if r.confidence >= env.livenessPass then Some(Passed)
    else if r.confidence >= env.livenessReview then Some(NeedsReview)
    else Some(NotPassed)
  }

  /** create_liveness_session; `allowed` is the verdict of the failure cool-down. */
  ghost function CreateLivenessSession(env: Env, s: State, pk: nat, session: string, allowed: bool): (reply: Reply)
    ensures reply.state == s.(verifications := reply.state.verifications)
    ensures reply.outcome.Rejected? ==> reply.state == s
    ensures OnlyRow(s.verifications, reply.state.verifications, pk, s.parties)
  {
    var found := PartyAt(s.parties, pk);
    if found.None? then Reject(s, NoSuchParty) else
    if !allowed then Reject(s, LivenessCooldown) else
    var v := EnsureCheck(env.text, s.verifications, found.value);
    var started := v.(livenessSession := session, livenessStatus := "pending");
    var result := if v.status == ManualReview then started.(status := Pending, codes := []) else started;
    Reply(s.(verifications := s.verifications[pk := result]), Done)
  }

  predicate SlotConfirmed(items: seq<Evidence>, kind: string) {
    exists e <- items :: e.confirmed && e.kind == kind
  }

  predicate CardsReady(items: seq<Evidence>, role: string) {
    SlotConfirmed(items, role + "_ghana_card_front") && SlotConfirmed(items, role + "_ghana_card_back")
  }

  /** The row a finished liveness session leaves. */
  function LivenessRow(p: Party, v: Verification, d: Decision, hasReference: bool, deleteAt: int): Verification {
    var named := v.(livenessStatus :=
      match d case Passed => "passed" case NeedsReview => "manual_review" case _ => "failed");
    var kept := if (d == Passed || d == NeedsReview) && hasReference
      then named.(referenceKey := "agreements/" + p.role + "_liveness_reference.jpg",
        referenceDeleteAt := Some(deleteAt))
      else named;
    if d == NeedsReview then kept.(status := ManualReview, codes := ["liveness_manual_review"])
    else if d == Passed && kept.status == ManualReview then kept.(status := Pending, codes := [])
    else kept
  }

  /** process_liveness_result */
  ghost function ProcessLivenessResult(env: Env, s: State, pk: nat, r: LivenessResult): (reply: Reply)
    ensures reply.state == s.(verifications := reply.state.verifications)
    ensures reply.outcome.Rejected? ==> reply.state == s
    ensures OnlyRow(s.verifications, reply.state.verifications, pk, s.parties)
  {
    var found := PartyAt(s.parties, pk);
    if found.None? then Reject(s, NoSuchParty) else
    var p := found.value;
    var v := EnsureCheck(env.text, s.verifications, p);
    if v.livenessSession == "" then Reject(s, NoLivenessSession) else
    var decision := Classify(env, r);
    if decision.None? then Reject(s, ServiceUnavailable) else
    if decision.value == InProgress then Reply(s, Done) else
    var d := decision.value;
    var judged := LivenessRow(p, v, d, r.hasReference, s.now + env.retention);
    var checks := s.verifications[pk := judged];
    if d == Passed && judged.status != Verified && CardsReady(s.evidence, p.role)
    then Reply(s.(verifications := WithReset(env.text, checks, p)), Done)
    else Reply(s.(verifications := checks), Done)
  }

  // ---- Manual review ----

  /** resolve_manual_review */
  ghost function ResolveManualReview(s: State, pk: nat, approved: bool): (reply: Reply)
    ensures reply.state == s.(verifications := reply.state.verifications)
    ensures reply.outcome.Rejected? ==> reply.state == s
    ensures OnlyRow(s.verifications, reply.state.verifications, pk, s.parties)
  {
    if pk !in s.verifications then Reject(s, NoSuchParty) else
    var v := s.verifications[pk];
    var liveness := v.codes == ["liveness_manual_review"];
    var face := v.codes == ["face_match_manual_review"];
    if !(liveness || face) || v.status != ManualReview then Reject(s, NotReviewable) else
    if liveness && v.referenceKey == "" then Reject(s, NotReviewable) else
    if face && !(v.frontId.Some? && v.backId.Some?) then Reject(s, NotReviewable) else
    var decided :=
      if approved && liveness then v.(livenessStatus := "passed", status := Pending, codes := [])
      else if approved then v.(status := Verified, codes := [], verifiedAt := Some(s.now))
      else v.(status := Failed, codes := ["manual_review_rejected"], verifiedAt := None);
    Reply(s.(verifications := s.verifications[pk := decided]), Done)
  }

  /** cleanup_expired_liveness_references on one row; `deleted` is whether storage let go of the image. */
  ghost function CleanupReference(s: State, pk: nat, deleted: bool): (reply: Reply)
    ensures reply.state == s.(verifications := reply.state.verifications)
    ensures reply.outcome.Rejected? ==> reply.state == s
    ensures OnlyRow(s.verifications, reply.state.verifications, pk, s.parties)
  {
    if pk !in s.verifications then Reject(s, NoSuchParty) else
    var v := s.verifications[pk];
    if v.referenceKey == "" || v.referenceDeleteAt.None? || v.referenceDeleteAt.value > s.now || !deleted
    then Reply(s, Done)
    else Reply(s.(verifications := s.verifications[pk := v.(referenceKey := "", referenceDeleteAt := None)]), Done)
  }
}
