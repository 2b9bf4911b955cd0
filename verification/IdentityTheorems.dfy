/** What a finished identity check says about the party's row now, over every interleaving of edits,
    uploads, liveness results, card readings and reviews. */
module IdentityTheorems {
  import opened Wrappers
  import opened Text
  import opened Rows
  import opened PartyIdentity
  import opened IdentitySteps
  import opened PartySteps
  import opened EvidenceSteps
  import opened SealSteps
  import opened ConsentSteps
  import opened Protocol
  import opened Integrity
  import opened Validators
  import opened SealTheorems

  const FACE_REVIEW := ["face_match_manual_review"]
  const LIVENESS_REVIEW := ["liveness_manual_review"]

  /** The identifier names a confirmed item of the slot. */
  ghost predicate NamesSlot(items: seq<Evidence>, id: Option<nat>, role: string, side: string) {
    exists e <- items :: FillsSlot(e, role, side) && id == Some(e.pk)
  }

  /** The card reading a decision rests on is a reading of the party's row as it is now. */
  ghost predicate ReadingFits(t: Alphabet, items: seq<Evidence>, p: Party, v: Verification) {
    && IsIdentityRequired(p.role)
    && v.enteredPin == NormalizePin(t, p.idNumber) && v.ocrPin == v.enteredPin && v.ocrPin != ""
    && v.enteredName == p.displayName
    && NamesSlot(items, v.frontId, p.role, "front") && NamesSlot(items, v.backId, p.role, "back")
  }

  ghost predicate CheckFits(t: Alphabet, items: seq<Evidence>, p: Party, v: Verification) {
    && (v.status == ManualReview ==> v.codes == FACE_REVIEW || v.codes == LIVENESS_REVIEW)
    && (v.status == Verified ==> v.codes == [] && v.verifiedAt.Some?)
    && (v.status == Verified || (v.status == ManualReview && v.codes == FACE_REVIEW) ==> ReadingFits(t, items, p, v))
  }

  ghost predicate ChecksFit(t: Alphabet, items: seq<Evidence>, parties: seq<Party>, checks: map<nat, Verification>) {
    forall p <- parties :: p.pk in checks ==> CheckFits(t, items, p, checks[p.pk])
  }

  // ---- Evidence only grows ----

  lemma SlotStaysNamed(a: seq<Evidence>, b: seq<Evidence>, id: Option<nat>, role: string, side: string)
    requires EvidenceGrows(a, b) && NamesSlot(a, id, role, side)
    ensures NamesSlot(b, id, role, side)
  {
    var e :| e in a && FillsSlot(e, role, side) && id == Some(e.pk);
    var i :| 0 <= i < |a| && a[i] == e;
    assert b[i] == e;
  }

  lemma CheckStillFits(t: Alphabet, a: seq<Evidence>, b: seq<Evidence>, p: Party, v: Verification)
    requires EvidenceGrows(a, b) && CheckFits(t, a, p, v)
    ensures CheckFits(t, b, p, v)
  {
    if ReadingFits(t, a, p, v) {
      SlotStaysNamed(a, b, v.frontId, p.role, "front");
      SlotStaysNamed(a, b, v.backId, p.role, "back");
    }
  }

  lemma ChecksStillFit(t: Alphabet, a: seq<Evidence>, b: seq<Evidence>, parties: seq<Party>,
      checks: map<nat, Verification>)
    requires EvidenceGrows(a, b) && ChecksFit(t, a, parties, checks)
    ensures ChecksFit(t, b, parties, checks)
  {
    forall p | p in parties && p.pk in checks ensures CheckFits(t, b, p, checks[p.pk]) {
      CheckStillFits(t, a, b, p, checks[p.pk]);
    }
  }

  // ---- One party's row ----

  lemma PartyOfPk(s: State, p: Party, q: Party)
    requires PartiesKeyed(s) && p in s.parties && q in s.parties && p.pk == q.pk
    ensures p == q
  {
    var i :| 0 <= i < |s.parties| && s.parties[i] == p;
    var j :| 0 <= j < |s.parties| && s.parties[j] == q;
  }

  /** A call that writes one row keeps the rest; it is enough that the new row fits its party. */
  lemma RowWritten(t: Alphabet, s: State, checks: map<nat, Verification>, pk: nat)
    requires PartiesKeyed(s) && ChecksFit(t, s.evidence, s.parties, s.verifications)
    requires OnlyRow(s.verifications, checks, pk, s.parties)
    requires forall p <- s.parties :: p.pk == pk && pk in checks ==> CheckFits(t, s.evidence, p, checks[pk])
    ensures ChecksFit(t, s.evidence, s.parties, checks)
  {
    forall p | p in s.parties && p.pk in checks ensures CheckFits(t, s.evidence, p, checks[p.pk]) {
      if p.pk != pk {
        assert p.pk in checks - {pk};
        assert checks[p.pk] == (checks - {pk})[p.pk] == (s.verifications - {pk})[p.pk];
      }
    }
  }

  /** The card was read and agrees with the party's row, and the selfie shows a face. */
  predicate CardAgrees(enteredPin: string, keysPresent: bool, r: Reading) {
    && keysPresent && r.Read? && r.qualityFailures == [] && r.cardMarkers
    && r.ocrPin == enteredPin && enteredPin != "" && r.nameMatches && r.faceConfidence > 0.0
  }

  /** A card is accepted exactly when it agrees with the row and the face is a sure match, and left to
      a person exactly when the face match alone is in doubt. */
  lemma ReadingDecides(enteredPin: string, keysPresent: bool, r: Reading)
    ensures var o := CardResult(enteredPin, keysPresent, r);
      && (o.Some? && o.value.status == Verified <==> CardAgrees(enteredPin, keysPresent, r) && r.similarity >= 90.0)
      && (o.Some? && o.value.status == ManualReview <==>
            CardAgrees(enteredPin, keysPresent, r) && 80.0 <= r.similarity < 90.0)
      && (o.Some? && o.value.status == Verified ==> o.value.codes == [] && o.value.ocrPin == enteredPin)
      && (o.Some? && o.value.status == ManualReview ==> o.value.codes == FACE_REVIEW && o.value.ocrPin == enteredPin)
  {
    if r.Read? {
      var codes := ReadingCodes(enteredPin, r);
      var markers := if r.cardMarkers then [] else ["ghana_card_markers_missing"];
      var pin := if r.ocrPin == "" then ["ocr_pin_missing"]
        else if r.ocrPin != enteredPin then ["ocr_pin_mismatch"] else [];
      var name := if r.nameMatches then [] else ["ocr_name_mismatch"];
      if markers + pin + name != [] {
        assert codes[0] == (markers + pin + name)[0];
        assert codes[0][0] != FACE_REVIEW[0][0];
      } else if codes != [] && codes != FACE_REVIEW {
        assert codes[0][0] == 's' || codes[0][11] == 'f';
      }
    }
  }

  /** The row a card verification writes fits the party it is about. */
  lemma VerifiedRowFits(t: Alphabet, p: Party, items: seq<Evidence>, v: Verification, reading: Reading, now: int)
    requires VerifiedRow(t, p, items, v, reading, now).Some?
    ensures CheckFits(t, items, p, VerifiedRow(t, p, items, v, reading, now).value)
  {
    hide CardResult, NormalizePin, LatestFor, ParseEvidenceType;
    var row := VerifiedRow(t, p, items, v, reading, now).value;
    var front, back := SlotItem(p, items, "front"), SlotItem(p, items, "back");
    if row.status == Verified || row.status == ManualReview {
      ReadingDecides(NormalizePin(t, p.idNumber), front.value.fileKey != "" && back.value.fileKey != "", reading);
    }
  }

  /** Writing a row for the party found by key keeps every row fitting. */
  lemma FoundRowWritten(t: Alphabet, s: State, checks: map<nat, Verification>, pk: nat)
    requires PartiesKeyed(s) && ChecksFit(t, s.evidence, s.parties, s.verifications)
    requires OnlyRow(s.verifications, checks, pk, s.parties)
    requires PartyAt(s.parties, pk).Some? && pk in checks
    requires CheckFits(t, s.evidence, PartyAt(s.parties, pk).value, checks[pk])
    ensures ChecksFit(t, s.evidence, s.parties, checks)
  {
    hide CheckFits, ChecksFit, OnlyRow;
    forall q | q in s.parties && q.pk == pk ensures q == PartyAt(s.parties, pk).value {
      PartyOfPk(s, PartyAt(s.parties, pk).value, q);
    }
    RowWritten(t, s, checks, pk);
  }

  lemma VerifyFits(env: Env, s: State, pk: nat, reading: Reading)
    requires PartiesKeyed(s) && ChecksFit(env.text, s.evidence, s.parties, s.verifications)
    ensures var s' := VerifyIdentity(env, s, pk, reading).state;
      ChecksFit(env.text, s.evidence, s.parties, s'.verifications)
  {
    hide VerifiedRow, CheckFits, ChecksFit, PartiesKeyed, EnsureCheck, OnlyRow;
    var reply := VerifyIdentity(env, s, pk, reading);
    if reply.outcome == Done {
      var p := PartyAt(s.parties, pk).value;
      VerifiedRowFits(env.text, p, s.evidence, EnsureCheck(env.text, s.verifications, p), reading, s.now);
      FoundRowWritten(env.text, s, reply.state.verifications, pk);
    }
  }

  // ---- Liveness and review ----

  lemma RowFits(t: Alphabet, s: State, p: Party)
    requires ChecksFit(t, s.evidence, s.parties, s.verifications) && p in s.parties && p.pk in s.verifications
    ensures CheckFits(t, s.evidence, p, s.verifications[p.pk])
  {
  }

  lemma FreshRowFits(t: Alphabet, items: seq<Evidence>, p: Party, q: Party)
    ensures CheckFits(t, items, q, FreshCheck(t, p))
  {
  }

  lemma ResetRowFits(t: Alphabet, items: seq<Evidence>, p: Party, q: Party, v: Verification)
    ensures CheckFits(t, items, q, ResetCheck(t, v, p))
  {
  }

  lemma EnsuredRowFits(t: Alphabet, s: State, p: Party)
    requires ChecksFit(t, s.evidence, s.parties, s.verifications) && p in s.parties
    ensures CheckFits(t, s.evidence, p, EnsureCheck(t, s.verifications, p))
  {
    hide CheckFits;
    FreshRowFits(t, s.evidence, p, p);
    if p.pk in s.verifications {
      RowFits(t, s, p);
    }
  }

  lemma CreateLivenessFits(env: Env, s: State, pk: nat, session: string, allowed: bool)
    requires PartiesKeyed(s) && ChecksFit(env.text, s.evidence, s.parties, s.verifications)
    ensures var s' := CreateLivenessSession(env, s, pk, session, allowed).state;
      ChecksFit(env.text, s.evidence, s.parties, s'.verifications)
  {
    hide ChecksFit, EnsureCheck, PartiesKeyed, NamesSlot, NormalizePin;
    var reply := CreateLivenessSession(env, s, pk, session, allowed);
    if reply.outcome == Done {
      EnsuredRowFits(env.text, s, PartyAt(s.parties, pk).value);
      FoundRowWritten(env.text, s, reply.state.verifications, pk);
    }
  }

  lemma LivenessRowFits(t: Alphabet, items: seq<Evidence>, p: Party, v: Verification, d: Decision,
      hasReference: bool, deleteAt: int)
    requires CheckFits(t, items, p, v)
    ensures CheckFits(t, items, p, LivenessRow(p, v, d, hasReference, deleteAt))
  {
    hide NamesSlot, NormalizePin;
  }

  lemma ProcessedRowFits(env: Env, s: State, pk: nat, r: LivenessResult)
    requires ProcessLivenessResult(env, s, pk, r).outcome == Done && Classify(env, r) != Some(InProgress)
    requires PartyAt(s.parties, pk).Some?
    requires CheckFits(env.text, s.evidence, PartyAt(s.parties, pk).value,
                       EnsureCheck(env.text, s.verifications, PartyAt(s.parties, pk).value))
    ensures var s' := ProcessLivenessResult(env, s, pk, r).state;
      pk in s'.verifications && CheckFits(env.text, s.evidence, PartyAt(s.parties, pk).value, s'.verifications[pk])
  {
    hide Classify, PartyAt, CheckFits, CardsReady, FreshCheck, OnlyRow, LivenessRow, ResetCheck;
    var p := PartyAt(s.parties, pk).value;
    var v := EnsureCheck(env.text, s.verifications, p);
    var row := LivenessRow(p, v, Classify(env, r).value, r.hasReference, s.now + env.retention);
    LivenessRowFits(env.text, s.evidence, p, v, Classify(env, r).value, r.hasReference, s.now + env.retention);
    ResetRowFits(env.text, s.evidence, p, p, row);
  }

  lemma ProcessLivenessFits(env: Env, s: State, pk: nat, r: LivenessResult)
    requires PartiesKeyed(s) && ChecksFit(env.text, s.evidence, s.parties, s.verifications)
    ensures var s' := ProcessLivenessResult(env, s, pk, r).state;
      ChecksFit(env.text, s.evidence, s.parties, s'.verifications)
  {
    hide CheckFits, ChecksFit, PartiesKeyed, Classify, CardsReady, WithReset;
    var reply := ProcessLivenessResult(env, s, pk, r);
    if reply.state != s {
      EnsuredRowFits(env.text, s, PartyAt(s.parties, pk).value);
      ProcessedRowFits(env, s, pk, r);
      FoundRowWritten(env.text, s, reply.state.verifications, pk);
    }
  }

  lemma ResolveFits(env: Env, s: State, pk: nat, approved: bool)
    requires PartiesKeyed(s) && ChecksFit(env.text, s.evidence, s.parties, s.verifications)
    ensures var s' := ResolveManualReview(s, pk, approved).state;
      ChecksFit(env.text, s.evidence, s.parties, s'.verifications)
  {
    hide ChecksFit, PartiesKeyed, NamesSlot, NormalizePin;
    var s' := ResolveManualReview(s, pk, approved).state;
    if s' != s {
      forall p | p in s.parties && p.pk == pk ensures CheckFits(env.text, s.evidence, p, s'.verifications[pk]) {
        RowFits(env.text, s, p);
      }
      RowWritten(env.text, s, s'.verifications, pk);
    }
  }

  lemma CleanupFits(env: Env, s: State, pk: nat, deleted: bool)
    requires PartiesKeyed(s) && ChecksFit(env.text, s.evidence, s.parties, s.verifications)
    ensures var s' := CleanupReference(s, pk, deleted).state;
      ChecksFit(env.text, s.evidence, s.parties, s'.verifications)
  {
    hide ChecksFit, PartiesKeyed, NamesSlot, NormalizePin;
    var s' := CleanupReference(s, pk, deleted).state;
    if s' != s {
      forall p | p in s.parties && p.pk == pk ensures CheckFits(env.text, s.evidence, p, s'.verifications[pk]) {
        RowFits(env.text, s, p);
      }
      RowWritten(env.text, s, s'.verifications, pk);
    }
  }

  // ---- Uploads ----

  lemma ResetFits(t: Alphabet, items: seq<Evidence>, parties: seq<Party>, checks: map<nat, Verification>, p: Party)
    requires ChecksFit(t, items, parties, checks)
    ensures ChecksFit(t, items, parties, WithReset(t, checks, p))
  {
    hide CheckFits;
    forall q | q in parties && q.pk in WithReset(t, checks, p)
      ensures CheckFits(t, items, q, WithReset(t, checks, p)[q.pk])
    {
      ResetRowFits(t, items, p, q, EnsureCheck(t, checks, p));
    }
  }

  lemma ConfirmFits(env: Env, s: State, c: Confirmation)
    requires ChecksFit(env.text, s.evidence, s.parties, s.verifications)
    ensures var s' := ConfirmUpload(env, s, c).state;
      ChecksFit(env.text, s'.evidence, s.parties, s'.verifications)
  {
    hide ChecksFit, WithReset, CardsReady, SlotConfirmed, RoleFits, AlreadyConfirmed, Awaiting;
    var s' := ConfirmUpload(env, s, c).state;
    if s' != s {
      ConfirmGrows(env, s, c);
      ChecksStillFit(env.text, s.evidence, s'.evidence, s.parties, s.verifications);
      if s'.verifications != s.verifications {
        var owner := PartySlot(s.parties, RolePrefix(c.kind));
        ResetFits(env.text, s'.evidence, s.parties, s.verifications, owner.value);
      }
    }
  }

  lemma ConfirmGrows(env: Env, s: State, c: Confirmation)
    ensures EvidenceGrows(s.evidence, ConfirmUpload(env, s, c).state.evidence)
  {
  }

  // ---- Editing the parties ----

  /** Only a witness's row may change under a finished check. */
  lemma SavedRowFits(t: Alphabet, items: seq<Evidence>, p: Party, saved: Party, v: Verification)
    requires CheckFits(t, items, p, v) && saved.role == p.role
    requires IsIdentityRequired(p.role) ==> saved.idNumber == p.idNumber && saved.displayName == p.displayName
    ensures CheckFits(t, items, saved, v)
  {
  }

  lemma PatchOneFits(t: Alphabet, items: seq<Evidence>, parties: seq<Party>, checks: map<nat, Verification>,
      patch: PartyPatch)
    requires ChecksFit(t, items, parties, checks) && PatchOne(t, parties, checks, patch).PatchDone?
    ensures var r := PatchOne(t, parties, checks, patch); ChecksFit(t, items, r.parties, r.checks)
  {
    hide CheckFits, PatchPhone, CheckedIdNumber, ResetCheck, EnsureCheck;
    var r := PatchOne(t, parties, checks, patch);
    var i := IndexOfRole(parties, patch.role).value;
    var saved := r.parties[i];
    var resets := IsIdentityRequired(patch.role)
      && (patch.fullName.Some? || patch.idType.Some? || patch.idNumber.Some?);
    assert r.parties == parties[i := saved] && r.checks == if resets then WithReset(t, checks, saved) else checks;
    if !resets && saved.pk in checks {
      assert parties[i] in parties;
      SavedRowFits(t, items, parties[i], saved, checks[saved.pk]);
    }
    hide PatchOne;
    forall q | q in r.parties && q.pk in r.checks ensures CheckFits(t, items, q, r.checks[q.pk]) {
      ResetRowFits(t, items, saved, q, EnsureCheck(t, checks, saved));
    }
  }

  lemma {:induction false} PatchAllFits(
    t: Alphabet, items: seq<Evidence>, parties: seq<Party>, checks: map<nat, Verification>, patches: seq<PartyPatch>)
    requires ChecksFit(t, items, parties, checks) && PatchAll(t, parties, checks, patches).PatchDone?
    ensures var r := PatchAll(t, parties, checks, patches); ChecksFit(t, items, r.parties, r.checks)
  {
    if patches != [] {
      hide PatchOne, ChecksFit;
      var last := |patches| - 1;
      PatchAllFits(t, items, parties, checks, patches[..last]);
      var mid := PatchAll(t, parties, checks, patches[..last]);
      PatchOneFits(t, items, mid.parties, mid.checks, patches[last]);
    }
  }

  lemma SettingFits(env: Env, s: State, keys: set<string>, inputs: seq<PartyInput>)
    requires Sound(s) && ChecksFit(env.text, s.evidence, s.parties, s.verifications)
    ensures var s' := SetParties(env, s, keys, inputs).state;
      ChecksFit(env.text, s.evidence, s'.parties, s'.verifications)
  {
    hide CheckFits, SetFault, FreshCheck;
    var s' := SetParties(env, s, keys, inputs).state;
    if s' != s {
      var created := NewParties(env.text, s.nextPk, inputs);
      forall q | q in created && q.pk in s'.verifications
        ensures CheckFits(env.text, s.evidence, q, s'.verifications[q.pk])
      {
        assert q.pk in CardHolders(created);
        FreshRowFits(env.text, s.evidence, PartyAt(created, q.pk).value, q);
      }
    }
  }

  lemma AddingFits(t: Alphabet, s: State, role: string, displayName: string, identityExists: bool)
    requires Sound(s) && ChecksFit(t, s.evidence, s.parties, s.verifications)
    ensures var s' := AddParty(s, role, displayName, identityExists).state;
      ChecksFit(t, s.evidence, s'.parties, s'.verifications)
  {
    hide CheckFits;
  }

  // ---- Every run ----

  lemma IdentityCallFits(env: Env, s: State, a: Action)
    requires PartiesKeyed(s) && ChecksFit(env.text, s.evidence, s.parties, s.verifications)
    requires a.DoVerifyIdentity? || a.DoCreateLiveness? || a.DoProcessLiveness? || a.DoResolveReview?
      || a.DoCleanupReference?
    ensures var s' := Apply(env, s, a).state; ChecksFit(env.text, s'.evidence, s'.parties, s'.verifications)
  {
    hide ChecksFit, VerifyIdentity, CreateLivenessSession, ProcessLivenessResult, ResolveManualReview, CleanupReference;
    hide PartiesKeyed, OnlyRow, SetParties, PatchParties, ConfirmUpload;
    hide RequestOtp, RequestReopenOtp, ConfirmByPhone, ConfirmReopenByPhone, ReissueConsent, VerifyOtp, SyncConsent;
    hide Seal, Reopen, RequestConsent, UpdateTerms, GenerateUploadUrl, UploadEvidence, AddParty;
    match a
    case DoVerifyIdentity(party, reading) => VerifyFits(env, s, party, reading);
    case DoCreateLiveness(party, session, allowed) => CreateLivenessFits(env, s, party, session, allowed);
    case DoProcessLiveness(party, result) => ProcessLivenessFits(env, s, party, result);
    case DoResolveReview(party, approved) => ResolveFits(env, s, party, approved);
    case DoCleanupReference(party, deleted) => CleanupFits(env, s, party, deleted);
  }

  lemma PatchingFits(env: Env, s: State, patches: seq<PartyPatch>)
    requires ChecksFit(env.text, s.evidence, s.parties, s.verifications)
    ensures var s' := PatchParties(env, s, patches).state;
      ChecksFit(env.text, s.evidence, s'.parties, s'.verifications)
  {
    hide ChecksFit, PatchAll;
    if PatchAll(env.text, s.parties, s.verifications, patches).PatchDone? {
      PatchAllFits(env.text, s.evidence, s.parties, s.verifications, patches);
    }
  }

  lemma ChecksFitStep(env: Env, s: State, a: Action)
    requires Sound(s) && ChecksFit(env.text, s.evidence, s.parties, s.verifications)
    ensures var s' := Apply(env, s, a).state; ChecksFit(env.text, s'.evidence, s'.parties, s'.verifications)
  {
    hide ChecksFit, SetParties, AddParty, ConfirmUpload, PatchParties;
    hide PartiesKeyed, EvidenceKeyed, RecordsKept, ChecksKept;
    match a
    case DoConfirmUpload(c) => ConfirmFits(env, s, c);
    case DoSetParties(keys, inputs) => SettingFits(env, s, keys, inputs);
    case DoAddParty(role, displayName, identityExists) => AddingFits(env.text, s, role, displayName, identityExists);
    case DoPatchParties(patches) => PatchingFits(env, s, patches);
    case _ =>
      hide Apply;
      if EditsChecks(a) {
        IdentityCallFits(env, s, a);
      } else {
        OtherCallsFit(env, s, a);
      }
  }

  lemma OtherCallsFit(env: Env, s: State, a: Action)
    requires !EditsParties(a) && !EditsChecks(a) && ChecksFit(env.text, s.evidence, s.parties, s.verifications)
    ensures var s' := Apply(env, s, a).state; ChecksFit(env.text, s'.evidence, s'.parties, s'.verifications)
  {
    hide Apply, ChecksFit;
    Frame(env, s, a);
    EvidenceStep(env, s, a);
    ChecksStillFit(env.text, s.evidence, Apply(env, s, a).state.evidence, s.parties, s.verifications);
  }

  lemma ChecksFitAt(env: Env, tr: Trace, i: nat)
    requires tr.Valid(env) && i < |tr.actions|
    requires var s := tr.states[i]; ChecksFit(env.text, s.evidence, s.parties, s.verifications)
    ensures var s' := tr.states[i + 1]; ChecksFit(env.text, s'.evidence, s'.parties, s'.verifications)
  {
    hide Apply, ChecksFit;
    AlwaysSound(env, tr, i);
    assert tr.Follows(env, i);
    ChecksFitStep(env, tr.states[i], tr.actions[i]);
  }

  /** In every state of every run, each party's check fits the party's row as it is now: VERIFIED and
      face review mean the card's number and name are the row's, read from confirmed uploads of the
      party's own slots; a review is open for exactly one of its two reasons. */
  lemma {:induction false} ChecksAlwaysFit(env: Env, tr: Trace, n: nat)
    requires tr.Valid(env) && n < |tr.states|
    ensures var s := tr.states[n]; ChecksFit(env.text, s.evidence, s.parties, s.verifications)
  {
    hide Apply;
    if n > 0 {
      ChecksAlwaysFit(env, tr, n - 1);
      hide ChecksFit;
      ChecksFitAt(env, tr, n - 1);
    }
  }

  /** Every party of a sealed agreement but the witness, as sealed, has the number and the name that were
      read from cards confirmed in that party's own slots. */
  lemma SealedPartiesWereRead(env: Env, tr: Trace, k: nat)
    requires tr.Valid(env) && SealsAt(env, tr, k)
    ensures var s := tr.states[k + 1];
      forall p <- s.parties :: IsIdentityRequired(p.role) ==>
        p.pk in s.verifications && ReadingFits(env.text, s.evidence, p, s.verifications[p.pk])
  {
    hide Apply, ReadingFits;
    SealAt(env, tr, k);
    ChecksAlwaysFit(env, tr, k);
    SealSawValid(env, tr.states[k], tr.actions[k]);
  }

  lemma SealSawValid(env: Env, s: State, a: Action)
    requires a.DoSeal? && Apply(env, s, a).outcome == Done
    ensures forall p <- s.parties :: IsIdentityRequired(p.role) ==>
      p.pk in s.verifications && s.verifications[p.pk].status == Verified
  {
    assert ValidNow(env, s) by { hide CardsValid, PhotoMinimumMet; }
  }
}
