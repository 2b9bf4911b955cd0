/** How an identity check is decided: by a card reading, by a face check, or by a person. */
module ReviewTheorems {
  import opened Wrappers
  import opened Text
  import opened Rows
  import opened PartyIdentity
  import opened IdentitySteps
  import opened PartySteps
  import opened EvidenceSteps
  import opened SealSteps
  import opened ConsentSteps
  import opened Protocol
  import opened Integrity
  import opened IdentityTheorems

  // ---- A person's decision ----

  /** The check waits for a person's decision that can be taken: on a face check whose image is still there, or
      on a face match with both card sides. */
  predicate Reviewable(v: Verification) {
    && v.status == ManualReview
    && ((v.codes == LIVENESS_REVIEW && v.referenceKey != "")
        || (v.codes == FACE_REVIEW && v.frontId.Some? && v.backId.Some?))
  }

  /** A review is decided exactly while it is open.  Approving a face match verifies the party, approving a face
      check sends its card to be read, and rejecting either fails the check. */
  lemma ReviewDecides(s: State, pk: nat, approved: bool)
    ensures var reply := ResolveManualReview(s, pk, approved);
      reply.outcome == Done <==> pk in s.verifications && Reviewable(s.verifications[pk])
    ensures var reply := ResolveManualReview(s, pk, approved);
      reply.outcome == Done ==>
        && pk in reply.state.verifications
        && var v, w := s.verifications[pk], reply.state.verifications[pk];
           && (w.status == Verified <==> approved && v.codes == FACE_REVIEW)
           && (w.status == Failed <==> !approved)
           && (w.status == Pending && w.livenessStatus == "passed" <==> approved && v.codes == LIVENESS_REVIEW)
           && (w.status == Verified ==> w.codes == [] && w.verifiedAt == Some(s.now))
           && (w.status == Failed ==> w.codes == ["manual_review_rejected"] && w.verifiedAt.None?)
           && (w.status == Pending ==> w.codes == [])
           && (v.codes == FACE_REVIEW || !approved ==> w.livenessStatus == v.livenessStatus)
  {
    assert LIVENESS_REVIEW[0][0] != FACE_REVIEW[0][0];
  }

  // ---- What verifies a party ----

  /** The call approves an open review of the party's face match. */
  predicate ApprovesFace(s: State, a: Action, pk: nat) {
    && a.DoResolveReview? && a.party == pk && a.approved && pk in s.verifications
    && Reviewable(s.verifications[pk]) && s.verifications[pk].codes == FACE_REVIEW
  }

  /** The party's latest confirmed file of this side. */
  function FileOfSide(items: seq<Evidence>, p: Party, side: string): Option<Evidence> {
    if IsIdentityRequired(p.role) then LatestFor(items, p.role, side) else None
  }

  /** Both sides of the card and a face are there: the image of a passed face check, or else a selfie. */
  predicate HasFiles(items: seq<Evidence>, p: Party, v: Verification) {
    var front, back := FileOfSide(items, p, "front"), FileOfSide(items, p, "back");
    var selfie := FileOfSide(items, p, "selfie");
    && front.Some? && back.Some? && front.value.fileKey != "" && back.value.fileKey != ""
    && ((v.livenessStatus == "passed" && v.referenceKey != "") || (selfie.Some? && selfie.value.fileKey != ""))
  }

  /** The card reading agrees with the party's row, and the faces match by 90 or more. */
  predicate ReadsAlike(t: Alphabet, p: Party, r: Reading) {
    && r.Read? && r.qualityFailures == [] && r.cardMarkers && r.nameMatches
    && r.ocrPin == NormalizePin(t, p.idNumber) && r.ocrPin != ""
    && r.faceConfidence > 0.0 && r.similarity >= 90.0
  }

  lemma RowVerifiedExactly(t: Alphabet, p: Party, items: seq<Evidence>, v: Verification, r: Reading, now: int)
    ensures var row := VerifiedRow(t, p, items, v, r, now);
      row.Some? && row.value.status == Verified <==> HasFiles(items, p, v) && ReadsAlike(t, p, r)
  {
    hide LatestFor, CardResult, NormalizePin;
    var front, back := FileOfSide(items, p, "front"), FileOfSide(items, p, "back");
    if front.Some? && back.Some? {
      ReadingDecides(NormalizePin(t, p.idNumber), front.value.fileKey != "" && back.value.fileKey != "", r);
    }
  }

  /** A passed face check whose image is still there stands for a selfie. */
  predicate FaceIsLive(v: Verification) {
    v.livenessStatus == "passed" && v.referenceKey != ""
  }

  /** Card and face are there to be read. */
  predicate IsPictured(items: seq<Evidence>, p: Party, v: Verification) {
    var selfie := FileOfSide(items, p, "selfie");
    && FileOfSide(items, p, "front").Some? && FileOfSide(items, p, "back").Some?
    && (FaceIsLive(v) || (selfie.Some? && selfie.value.fileKey != ""))
  }

  predicate CanBeRead(items: seq<Evidence>, p: Party) {
    var front, back := FileOfSide(items, p, "front"), FileOfSide(items, p, "back");
    front.Some? && back.Some? && front.value.fileKey != "" && back.value.fileKey != ""
  }

  predicate IsKeyOf(pk: Option<nat>, e: Option<Evidence>) {
    if e.Some? then pk == Some(e.value.pk) else pk == None
  }

  /** How a check ends that was made: what could not be read fails, an outage waits, and a reading fails with all
      that is wrong, waits for a person if only the faces are in doubt, and is VERIFIED if nothing is wrong. */
  predicate EndsAs(w: Verification, r: Reading, readable: bool) {
    if !readable || r.Crashed? then w.status == Failed && w.codes == ["verification_unexpected_failure"]
    else if r.Unavailable? then w.status == Pending && w.codes == ["verification_unavailable"]
    else if r.qualityFailures != [] then w.status == Failed && w.codes == r.qualityFailures
    else
      && w.ocrPin == r.ocrPin && w.codes == ReadingCodes(w.enteredPin, r)
      && w.status == (if w.codes == [] then Verified else if w.codes == FACE_REVIEW then ManualReview else Failed)
  }

  lemma ResultEnds(enteredPin: string, readable: bool, r: Reading, w: Verification)
    ensures CardResult(enteredPin, readable, r).None? <==> readable && r.Unavailable? && !r.softFail
    ensures CardResult(enteredPin, readable, r).Some? ==>
      var o := CardResult(enteredPin, readable, r).value;
      w.enteredPin == enteredPin && w.status == o.status && w.codes == o.codes && w.ocrPin == o.ocrPin ==>
        EndsAs(w, r, readable)
  {
    hide ReadingCodes;
  }

  /** Verifying raises exactly on an outage that is not to be softened.  Else the row names the pictures it
      looked at and has a time exactly if VERIFIED; the face check is kept.  Without pictures the check waits,
      and else it ends as the reading does. */
  lemma ReadsRowExactly(t: Alphabet, p: Party, items: seq<Evidence>, v: Verification, r: Reading, now: int)
    ensures VerifiedRow(t, p, items, v, r, now).None? <==>
      IsPictured(items, p, v) && CanBeRead(items, p) && r.Unavailable? && !r.softFail
    ensures VerifiedRow(t, p, items, v, r, now).Some? ==>
      var w := VerifiedRow(t, p, items, v, r, now).value;
      && IsKeyOf(w.frontId, FileOfSide(items, p, "front")) && IsKeyOf(w.backId, FileOfSide(items, p, "back"))
      && (if FaceIsLive(v) then w.selfieId == None else IsKeyOf(w.selfieId, FileOfSide(items, p, "selfie")))
      && w.verifiedAt == (if w.status == Verified then Some(now) else None)
      && w.livenessSession == v.livenessSession && w.livenessStatus == v.livenessStatus
      && w.referenceKey == v.referenceKey && w.referenceDeleteAt == v.referenceDeleteAt
      && (!IsPictured(items, p, v) ==> w.status == Pending && w.codes == [])
      && (IsPictured(items, p, v) ==>
            && w.enteredPin == NormalizePin(t, p.idNumber) && w.enteredName == p.displayName
            && EndsAs(w, r, CanBeRead(items, p)))
  {
    hide LatestFor, NormalizePin, CardResult, EndsAs;
    var row := VerifiedRow(t, p, items, v, r, now);
    ResultEnds(NormalizePin(t, p.idNumber), CanBeRead(items, p), r, if row.Some? then row.value else v);
  }

  /** The codes of a reading name everything that is wrong with it, each at most once. */
  lemma CodesNameFaults(enteredPin: string, r: Reading)
    requires r.Read?
    ensures var codes := ReadingCodes(enteredPin, r);
      && ("ghana_card_markers_missing" in codes <==> !r.cardMarkers)
      && ("ocr_pin_missing" in codes <==> r.ocrPin == "")
      && ("ocr_pin_mismatch" in codes <==> r.ocrPin != "" && r.ocrPin != enteredPin)
      && ("ocr_name_mismatch" in codes <==> !r.nameMatches)
      && ("selfie_face_missing" in codes <==> r.faceConfidence <= 0.0)
      && ("face_match_failed" in codes <==> r.faceConfidence > 0.0 && r.similarity < 80.0)
      && ("face_match_manual_review" in codes <==> r.faceConfidence > 0.0 && 80.0 <= r.similarity < 90.0)
      && |codes| <= 4
  {
    var all := ["ghana_card_markers_missing", "ocr_pin_missing", "ocr_pin_mismatch", "ocr_name_mismatch",
                "selfie_face_missing", "face_match_failed", "face_match_manual_review"];
    assert |all[0]| == 26 && |all[1]| == 15 && |all[2]| == 16 && |all[3]| == 17;
    assert |all[4]| == 19 && |all[5]| == 17 && |all[6]| == 24 && all[3][0] != all[5][0];
  }

  /** The call reads the party's card, and the reading passes. */
  ghost predicate CardPasses(env: Env, s: State, a: Action, pk: nat) {
    && a.DoVerifyIdentity? && a.party == pk
    && exists p <- s.parties ::
         && p.pk == pk && HasFiles(s.evidence, p, EnsureCheck(env.text, s.verifications, p))
         && ReadsAlike(env.text, p, a.reading)
  }

  predicate StatusIs(checks: map<nat, Verification>, pk: nat, status: CheckStatus) {
    pk in checks && checks[pk].status == status
  }

  lemma ReadingVerifies(env: Env, s: State, party: nat, reading: Reading, pk: nat)
    requires PartiesKeyed(s) && !StatusIs(s.verifications, pk, Verified)
    ensures StatusIs(VerifyIdentity(env, s, party, reading).state.verifications, pk, Verified) <==>
      CardPasses(env, s, DoVerifyIdentity(party, reading), pk)
  {
    hide VerifiedRow, HasFiles, ReadsAlike;
    var found := PartyAt(s.parties, party);
    if found.Some? {
      var p := found.value;
      RowVerifiedExactly(env.text, p, s.evidence, EnsureCheck(env.text, s.verifications, p), reading, s.now);
      forall q | q in s.parties && q.pk == p.pk ensures q == p {
        PartyOfPk(s, p, q);
      }
    }
    hide EnsureCheck;
  }

  lemma OtherRowKept(before: map<nat, Verification>, after: map<nat, Verification>, party: nat, pk: nat,
      parties: seq<Party>)
    requires OnlyRow(before, after, party, parties) && pk != party
    ensures pk in after <==> pk in before
    ensures pk in after ==> after[pk] == before[pk]
  {
    var b: map<nat, Verification>, a: map<nat, Verification> := before - {party}, after - {party};
    assert b == a;
    assert pk in after ==> pk in a && a[pk] == after[pk];
    assert pk in before ==> pk in b && b[pk] == before[pk];
  }

  lemma ReviewVerifies(s: State, party: nat, approved: bool, pk: nat)
    requires !StatusIs(s.verifications, pk, Verified)
    ensures StatusIs(ResolveManualReview(s, party, approved).state.verifications, pk, Verified) <==>
      ApprovesFace(s, DoResolveReview(party, approved), pk)
  {
    hide ResolveManualReview, Reviewable;
    ReviewDecides(s, party, approved);
    var after := ResolveManualReview(s, party, approved).state.verifications;
    if pk != party {
      OtherRowKept(s.verifications, after, party, pk, s.parties);
    }
  }

  lemma SettingVerifiesNobody(env: Env, s: State, keys: set<string>, inputs: seq<PartyInput>, pk: nat)
    requires !StatusIs(s.verifications, pk, Verified)
    ensures !StatusIs(SetParties(env, s, keys, inputs).state.verifications, pk, Verified)
  {
    hide SetFault, NewParties, RecordsWithout;
  }

  lemma {:induction false} PatchingVerifiesNobody(t: Alphabet, parties: seq<Party>, checks: map<nat, Verification>,
      patches: seq<PartyPatch>, pk: nat)
    requires !StatusIs(checks, pk, Verified)
    ensures var r := PatchAll(t, parties, checks, patches); r.PatchDone? ==> !StatusIs(r.checks, pk, Verified)
  {
    if patches != [] {
      PatchingVerifiesNobody(t, parties, checks, patches[..|patches| - 1], pk);
    }
  }

  lemma UploadVerifiesNobody(env: Env, s: State, c: Confirmation, pk: nat)
    requires !StatusIs(s.verifications, pk, Verified)
    ensures !StatusIs(ConfirmUpload(env, s, c).state.verifications, pk, Verified)
  {
    hide RoleFits, IsIdentityEvidence, RolePrefix, MatchesRequest, MatchesStored, CardsReady, SlotConfirmed;
  }

  lemma FaceCheckVerifiesNobody(env: Env, s: State, a: Action, pk: nat)
    requires !StatusIs(s.verifications, pk, Verified)
    ensures a.DoCreateLiveness? ==>
      !StatusIs(CreateLivenessSession(env, s, a.party, a.session, a.allowed).state.verifications, pk, Verified)
    ensures a.DoProcessLiveness? ==>
      !StatusIs(ProcessLivenessResult(env, s, a.party, a.result).state.verifications, pk, Verified)
    ensures a.DoCleanupReference? ==>
      !StatusIs(CleanupReference(s, a.party, a.deleted).state.verifications, pk, Verified)
  {
    hide CardsReady, Classify, NormalizePin;
  }

  lemma PatchVerifiesNobody(env: Env, s: State, patches: seq<PartyPatch>, pk: nat)
    requires !StatusIs(s.verifications, pk, Verified)
    ensures !StatusIs(PatchParties(env, s, patches).state.verifications, pk, Verified)
  {
    hide PatchAll;
    PatchingVerifiesNobody(env.text, s.parties, s.verifications, patches, pk);
  }

  lemma EditsVerifyNobody(env: Env, s: State, a: Action, pk: nat)
    requires EditsChecks(a) && !a.DoVerifyIdentity? && !a.DoResolveReview?
    requires !StatusIs(s.verifications, pk, Verified)
    ensures !StatusIs(Apply(env, s, a).state.verifications, pk, Verified)
  {
    hide SetParties, PatchParties, AddParty, UpdateTerms, GenerateUploadUrl, UploadEvidence, ConfirmUpload;
    hide VerifyIdentity, CreateLivenessSession, ProcessLivenessResult, ResolveManualReview, CleanupReference;
    hide ConfirmByPhone, ConfirmReopenByPhone, VerifyOtp, RequestOtp, RequestReopenOtp, ReissueConsent, SyncConsent;
    hide StatusIs, Reviewable, HasFiles, ReadsAlike, PartiesKeyed;
    hide Seal, RequestConsent, Close, RequestReopen, CancelReopen, Reopen;
    match a
    case DoSetParties(keys, inputs) => SettingVerifiesNobody(env, s, keys, inputs, pk);
    case DoPatchParties(patches) => PatchVerifiesNobody(env, s, patches, pk);
    case DoConfirmUpload(c) => UploadVerifiesNobody(env, s, c, pk);
    case _ => FaceCheckVerifiesNobody(env, s, a, pk);
  }

  lemma DecisionsVerify(env: Env, s: State, a: Action, pk: nat)
    requires PartiesKeyed(s) && !StatusIs(s.verifications, pk, Verified) && (a.DoVerifyIdentity? || a.DoResolveReview?)
    ensures StatusIs(Apply(env, s, a).state.verifications, pk, Verified) <==>
      ApprovesFace(s, a, pk) || CardPasses(env, s, a, pk)
  {
    hide SetParties, PatchParties, AddParty, UpdateTerms, GenerateUploadUrl, UploadEvidence, ConfirmUpload;
    hide VerifyIdentity, CreateLivenessSession, ProcessLivenessResult, ResolveManualReview, CleanupReference;
    hide ConfirmByPhone, ConfirmReopenByPhone, VerifyOtp, RequestOtp, RequestReopenOtp, ReissueConsent, SyncConsent;
    hide StatusIs, Reviewable, HasFiles, ReadsAlike, PartiesKeyed;
    hide Seal, RequestConsent, Close, RequestReopen, CancelReopen, Reopen;
    match a
    case DoVerifyIdentity(party, reading) => ReadingVerifies(env, s, party, reading, pk);
    case DoResolveReview(party, approved) => ReviewVerifies(s, party, approved, pk);
  }

  /** Whatever the call, a check turns VERIFIED exactly if a person approves the face match under review, or a
      reading of the party's own card passes. */
  lemma VerifiesExactly(env: Env, s: State, a: Action, pk: nat)
    requires PartiesKeyed(s) && !StatusIs(s.verifications, pk, Verified)
    ensures StatusIs(Apply(env, s, a).state.verifications, pk, Verified) <==>
      ApprovesFace(s, a, pk) || CardPasses(env, s, a, pk)
  {
    hide Apply, StatusIs, Reviewable, HasFiles, ReadsAlike, PartiesKeyed;
    if !EditsChecks(a) {
      OthersVerifyNobody(env, s, a, pk);
    } else if a.DoVerifyIdentity? || a.DoResolveReview? {
      DecisionsVerify(env, s, a, pk);
    } else {
      EditsVerifyNobody(env, s, a, pk);
    }
  }

  lemma OthersVerifyNobody(env: Env, s: State, a: Action, pk: nat)
    requires !EditsChecks(a) && !StatusIs(s.verifications, pk, Verified)
    ensures !StatusIs(Apply(env, s, a).state.verifications, pk, Verified)
    ensures !ApprovesFace(s, a, pk) && !CardPasses(env, s, a, pk)
  {
    hide Apply, StatusIs, Reviewable, HasFiles, ReadsAlike;
    Frame(env, s, a);
  }

  /** So in every run; from review too, a party gets VERIFIED by an approval or a new reading only. */
  lemma VerifiedInRun(env: Env, tr: Trace, n: nat, pk: nat)
    requires tr.Valid(env) && n < |tr.actions| && !StatusIs(tr.states[n].verifications, pk, Verified)
    ensures StatusIs(tr.states[n + 1].verifications, pk, Verified) <==>
      ApprovesFace(tr.states[n], tr.actions[n], pk) || CardPasses(env, tr.states[n], tr.actions[n], pk)
  {
    hide Apply, CardPasses, ApprovesFace, StatusIs;
    AlwaysSound(env, tr, n);
    assert tr.Follows(env, n);
    VerifiesExactly(env, tr.states[n], tr.actions[n], pk);
  }

  // ---- Face checks ----

  /** What the provider's result amounts to. */
  predicate FacePassed(env: Env, r: LivenessResult) {
    r.awsStatus == "SUCCEEDED" && r.confidence >= env.livenessPass
  }

  predicate FaceInDoubt(env: Env, r: LivenessResult) {
    r.awsStatus == "SUCCEEDED" && env.livenessReview <= r.confidence < env.livenessPass
  }

  /** A finished face check passes, waits for a person or fails, by its confidence and the two thresholds. */
  lemma FaceCheckDecides(env: Env, s: State, pk: nat, r: LivenessResult)
    requires pk in s.verifications && ProcessLivenessResult(env, s, pk, r).outcome == Done
    requires r.awsStatus !in {"CREATED", "IN_PROGRESS"}
    ensures pk in ProcessLivenessResult(env, s, pk, r).state.verifications
    ensures var v, w := s.verifications[pk], ProcessLivenessResult(env, s, pk, r).state.verifications[pk];
      && v.livenessSession != ""
      && (w.livenessStatus == "passed" <==> FacePassed(env, r))
      && (w.livenessStatus == "manual_review" <==> FaceInDoubt(env, r))
      && (w.livenessStatus == "failed" <==> !FacePassed(env, r) && !FaceInDoubt(env, r))
      && (FaceInDoubt(env, r) ==> w.status == ManualReview && w.codes == LIVENESS_REVIEW)
      && (!FacePassed(env, r) && !FaceInDoubt(env, r) ==> w == v.(livenessStatus := "failed"))
      && (FacePassed(env, r) ==> w.status != ManualReview && (v.status == Verified ==> w.status == Verified))
  {
    hide PartyAt, CardsReady, NormalizePin, Classify;
    FaceCheckClass(env, r);
  }

  lemma FaceCheckClass(env: Env, r: LivenessResult)
    ensures Classify(env, r) == Some(Passed) ==> FacePassed(env, r)
    ensures Classify(env, r) == Some(NeedsReview) ==> FaceInDoubt(env, r)
    ensures Classify(env, r).Some? && Classify(env, r).value !in {Passed, NeedsReview} ==>
      !FacePassed(env, r) && !FaceInDoubt(env, r)
    ensures Classify(env, r) == Some(InProgress) <==> r.awsStatus in {"CREATED", "IN_PROGRESS"}
  {
  }

  /** Only a check that passed or waits keeps the image taken, for the time set. */
  lemma FaceCheckImage(env: Env, s: State, pk: nat, r: LivenessResult)
    requires pk in s.verifications && ProcessLivenessResult(env, s, pk, r).outcome == Done
    requires r.awsStatus !in {"CREATED", "IN_PROGRESS"}
    ensures pk in ProcessLivenessResult(env, s, pk, r).state.verifications
    ensures var v, w := s.verifications[pk], ProcessLivenessResult(env, s, pk, r).state.verifications[pk];
      if r.hasReference && (FacePassed(env, r) || FaceInDoubt(env, r))
      then w.referenceKey != "" && w.referenceDeleteAt == Some(s.now + env.retention)
      else w.referenceKey == v.referenceKey && w.referenceDeleteAt == v.referenceDeleteAt
  {
    hide PartyAt, CardsReady, NormalizePin, Classify;
    FaceCheckClass(env, r);
  }

  /** A face check starts exactly for a party and outside the cool-down: it waits under the new session, and
      drops a review in progress; nothing else of the row changes. */
  lemma FaceCheckStarts(env: Env, s: State, pk: nat, session: string, allowed: bool)
    requires pk in s.verifications
    ensures CreateLivenessSession(env, s, pk, session, allowed).outcome == Done <==>
      allowed && exists p :: p in s.parties && p.pk == pk
    ensures pk in CreateLivenessSession(env, s, pk, session, allowed).state.verifications
    ensures var reply := CreateLivenessSession(env, s, pk, session, allowed);
      var v, w := s.verifications[pk], reply.state.verifications[pk];
      reply.outcome == Done ==>
        && reply.state.verifications == s.verifications[pk := w]
        && w == v.(livenessSession := session, livenessStatus := "pending", status := w.status, codes := w.codes)
        && (v.status == ManualReview ==> w.status == Pending && w.codes == [])
        && (v.status != ManualReview ==> w.status == v.status && w.codes == v.codes)
  {
  }

  /** An unfinished one changes nothing; without a session there is none to process. */
  lemma FaceCheckWaits(env: Env, s: State, pk: nat, r: LivenessResult)
    requires r.awsStatus in {"CREATED", "IN_PROGRESS"}
      || (pk in s.verifications && s.verifications[pk].livenessSession == "")
    ensures ProcessLivenessResult(env, s, pk, r).state == s
  {
    hide PartyAt, NormalizePin;
  }

  /** The image of a face check is forgotten exactly when storage let go of it after its time. */
  lemma ImageForgottenExactly(s: State, pk: nat, deleted: bool)
    requires pk in s.verifications && s.verifications[pk].referenceKey != ""
    ensures var v, after := s.verifications[pk], CleanupReference(s, pk, deleted).state.verifications;
      && pk in after
      && (after[pk].referenceKey == "" <==>
            deleted && v.referenceDeleteAt.Some? && v.referenceDeleteAt.value <= s.now)
      && after[pk] == v.(referenceKey := after[pk].referenceKey, referenceDeleteAt := after[pk].referenceDeleteAt)
  {
  }

  /** A confirmed upload starts the card check over exactly if it is not VERIFIED and both card sides and a face
      are there. */
  lemma UploadRestartsExactly(t: Alphabet, items: seq<Evidence>, checks: map<nat, Verification>, p: Party)
    requires p.pk in checks
    ensures var v, after := checks[p.pk], AfterUpload(t, items, checks, p);
      && p.pk in after
      && (v.status != Verified
          && (exists e <- items :: e.confirmed && e.kind == p.role + "_ghana_card_front")
          && (exists e <- items :: e.confirmed && e.kind == p.role + "_ghana_card_back")
          && ((exists e <- items :: e.confirmed && e.kind == p.role + "_selfie")
              || (v.livenessStatus == "passed" && v.referenceKey != ""))
          ==> after[p.pk].status == Pending && after[p.pk].codes == [] && after[p.pk].verifiedAt.None?
              && after[p.pk].frontId.None? && after[p.pk].backId.None? && after[p.pk].selfieId.None?)
      && (v.status == Verified
          || !(exists e <- items :: e.confirmed && e.kind == p.role + "_ghana_card_front")
          || !(exists e <- items :: e.confirmed && e.kind == p.role + "_ghana_card_back")
          || !((exists e <- items :: e.confirmed && e.kind == p.role + "_selfie")
               || (v.livenessStatus == "passed" && v.referenceKey != ""))
          ==> after == checks)
  {
    hide NormalizePin;
  }
}
