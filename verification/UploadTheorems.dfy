/** An upload is two calls: the slot that is reserved first, and the confirmation that fills it. */
module UploadTheorems {
  import opened Lifecycle
  import opened Wrappers
  import opened Ordering
  import opened Rows
  import opened Policies
  import opened PartyIdentity
  import opened Protocol
  import opened IdentitySteps
  import opened PartySteps
  import opened ConsentSteps
  import opened EvidenceSteps
  import opened SealSteps
  import opened Validators
  import opened Integrity

  /** The item a slot becomes once confirmed. */
  function ItemOf(s: State, r: UploadRequest): Evidence {
    Evidence(s.nextPk, r.kind, r.mime, r.size, r.fileKey, r.checksum, true)
  }

  /** The confirmation a client sends for its slot, the object stored as announced. */
  function ConfirmationOf(r: UploadRequest, pk: Option<nat>): Confirmation {
    Confirmation(r.fileKey, r.kind, r.mime, r.checksum, pk, Object(r.size, r.mime, r.checksum))
  }

  lemma UnconfirmedShowsNothing(items: seq<Evidence>, slot: Evidence)
    requires !slot.confirmed
    ensures forall role, side :: LatestFor(items + [slot], role, side) == LatestFor(items, role, side)
    ensures forall scenario :: PhotoMinimumMet(scenario, items + [slot]) == PhotoMinimumMet(scenario, items)
    ensures ConfirmedRows(items + [slot]) == ConfirmedRows(items)
    ensures HasConfirmedEvidence(items + [slot]) == HasConfirmedEvidence(items)
  {
    assert (items + [slot])[..|items|] == items;
    forall role, side ensures LatestFor(items + [slot], role, side) == LatestFor(items, role, side) {
    }
    forall prefix ensures CountConfirmed(items + [slot], prefix) == CountConfirmed(items, prefix) {
    }
  }

  /** Until it is confirmed a slot counts for nothing: not for the hash, the seal's policy or validation. */
  lemma SlotCountsForNothing(env: Env, s: State, r: UploadRequest)
    ensures var s' := GenerateUploadUrl(s, r).state;
      && PayloadNow(env, s') == PayloadNow(env, s)
      && HasConfirmedEvidence(s'.evidence) == HasConfirmedEvidence(s.evidence)
      && ValidNow(env, s') == ValidNow(env, s)
  {
    hide LatestFor, PhotoMinimumMet, ConfirmedRows, HasConfirmedEvidence, OrderBy, CardsValid, RoleFits, IsKind;
    var slot := ItemOf(s, r).(confirmed := false);
    UnconfirmedShowsNothing(s.evidence, slot);
  }

  /** The row of a slot that waits for its file. */
  function SlotOf(pk: nat, r: UploadRequest): Evidence {
    Evidence(pk, r.kind, r.mime, r.size, r.fileKey, r.checksum, false)
  }

  /** Confirming by the row's key fills just that slot, whatever the status and whatever else is pending. */
  lemma ConfirmFillsSlot(env: Env, s: State, i: nat, r: UploadRequest)
    requires DistinctEvidencePks(s.evidence) && i < |s.evidence| && RoleFits(s.parties, r.kind)
    requires s.evidence[i] == SlotOf(s.evidence[i].pk, r)
    ensures var reply := ConfirmUpload(env, s, ConfirmationOf(r, Some(s.evidence[i].pk)));
      reply.outcome == Done && reply.state.evidence == s.evidence[i := s.evidence[i].(confirmed := true)]
  {
    hide RoleFits, AfterUpload, IsIdentityEvidence;
    assert Awaiting(s.evidence, ConfirmationOf(r, Some(s.evidence[i].pk))) == {i};
  }

  /** So reserving a slot and confirming it adds that item. */
  lemma SlotThenConfirmByKey(env: Env, s: State, r: UploadRequest)
    requires EvidenceKeyed(s) && GenerateUploadUrl(s, r).outcome == Done
    ensures var reply := ConfirmUpload(env, GenerateUploadUrl(s, r).state, ConfirmationOf(r, Some(s.nextPk)));
      reply.outcome == Done && reply.state.evidence == s.evidence + [ItemOf(s, r)]
  {
    hide RoleFits, IsKind, IsIdentityEvidence, ConfirmUpload;
    var s1 := GenerateUploadUrl(s, r).state;
    ConfirmFillsSlot(env, s1, |s.evidence|, r);
  }

  /** Without the key it does so exactly when no other slot with that file key is pending. */
  lemma SlotThenConfirmExactly(env: Env, s: State, r: UploadRequest)
    requires GenerateUploadUrl(s, r).outcome == Done
    ensures var reply := ConfirmUpload(env, GenerateUploadUrl(s, r).state, ConfirmationOf(r, None));
      && (reply.outcome == Done <==> forall e <- s.evidence :: e.confirmed || e.fileKey != r.fileKey)
      && (reply.outcome == Done ==> reply.state.evidence == s.evidence + [ItemOf(s, r)])
  {
    var s1 := GenerateUploadUrl(s, r).state;
    var c := ConfirmationOf(r, None);
    hide RoleFits, IsKind, AfterUpload, IsIdentityEvidence;
    SlotAwaits(s.evidence, s1.evidence[|s.evidence|], c);
    hide Awaiting;
  }

  /** The new slot awaits its file, and others with the same key do too. */
  lemma SlotAwaits(items: seq<Evidence>, slot: Evidence, c: Confirmation)
    requires !slot.confirmed && slot.fileKey == c.fileKey && c.evidencePk.None?
    ensures var waiting := Awaiting(items + [slot], c);
      if forall e <- items :: e.confirmed || e.fileKey != c.fileKey then waiting == {|items|} else |waiting| > 1
  {
    var all := items + [slot];
    assert |items| in Awaiting(all, c);
    if forall e <- items :: e.confirmed || e.fileKey != c.fileKey {
      assert Awaiting(all, c) == {|items|};
    } else {
      var i :| 0 <= i < |items| && !items[i].confirmed && items[i].fileKey == c.fileKey;
      var two := {i, |items|};
      assert two <= Awaiting(all, c) && Awaiting(all, c) == two + (Awaiting(all, c) - two);
    }
  }

  // ---- What it takes to confirm an upload ----

  /** The upload was announced as the item was, and storage holds an object like it. */
  predicate FitsItem(e: Evidence, c: Confirmation) {
    && e.fileKey == c.fileKey && e.kind == c.kind && e.mime == c.mime && e.fileHash == c.checksum
    && c.stored.Object? && c.stored.size == e.size
    && (c.stored.mime == "" || c.stored.mime == e.mime)
    && (c.stored.checksum == "" || c.stored.checksum == e.fileHash)
  }

  /** An identity upload belongs to a role some party has. */
  ghost predicate RolePresent(parties: seq<Party>, kind: string) {
    ParseEvidenceType(kind).Some? ==> exists p <- parties :: p.role == ParseEvidenceType(kind).value.0
  }

  lemma RolePresentFits(parties: seq<Party>, kind: string)
    ensures RolePresent(parties, kind) <==> RoleFits(parties, kind)
  {
    hide ParseEvidenceType;
    if ParseEvidenceType(kind).Some? && RoleFits(parties, kind) {
      var p :| p in parties && p.role == ParseEvidenceType(kind).value.0;
    }
  }

  /** An item turns confirmed only if the request and the stored object fit it. */
  lemma ConfirmingNeedsObject(env: Env, s: State, c: Confirmation, i: nat)
    requires i < |s.evidence| && !s.evidence[i].confirmed
    requires var items := ConfirmUpload(env, s, c).state.evidence; i < |items| && items[i].confirmed
    ensures FitsItem(s.evidence[i], c) && RolePresent(s.parties, c.kind)
  {
    hide RoleFits, AfterUpload, IsIdentityEvidence, RolePrefix;
    RolePresentFits(s.parties, c.kind);
  }

  /** Exactly one pending item is meant: by its key if one was sent, else by its file key. */
  ghost predicate MeansOnly(items: seq<Evidence>, c: Confirmation, i: nat) {
    i < |items| && forall j :: 0 <= j < |items| ==> (j == i <==> IsMeant(items[j], c))
  }

  predicate IsMeant(e: Evidence, c: Confirmation) {
    && !e.confirmed
    && (c.evidencePk.Some? ==> e.pk == c.evidencePk.value) && (c.evidencePk.None? ==> e.fileKey == c.fileKey)
  }

  /** The one pending item that is meant is confirmed exactly if request, stored object and role fit. */
  lemma ConfirmsExactly(env: Env, s: State, c: Confirmation, i: nat)
    requires MeansOnly(s.evidence, c, i)
    ensures var reply := ConfirmUpload(env, s, c);
      && (reply.outcome == Done <==> FitsItem(s.evidence[i], c) && RolePresent(s.parties, c.kind))
      && reply.state.evidence ==
         if reply.outcome == Done then s.evidence[i := s.evidence[i].(confirmed := true)] else s.evidence
  {
    hide RoleFits, AfterUpload, IsIdentityEvidence, RolePrefix, RolePresent;
    RolePresentFits(s.parties, c.kind);
    assert Awaiting(s.evidence, c) == {i};
  }

  // ---- What evidence can be there ----

  /** An item of the upload path: a name of letters, digits and underscores, a known type, 1 byte to 50 MB, and
      an image if it is an identity document. */
  predicate WellFormed(e: Evidence) {
    && |e.kind| >= 2 && 'a' <= e.kind[0] <= 'z' && |e.kind| <= 128
    && (forall i :: 0 <= i < |e.kind| - 1 ==> 'a' <= e.kind[i] <= 'z' || '0' <= e.kind[i] <= '9' || e.kind[i] == '_')
    && e.mime in {"image/jpeg", "image/png", "audio/wav", "audio/ogg", "audio/mpeg", "application/pdf"}
    && 1 <= e.size <= 52428800
    && (ParseEvidenceType(e.kind).Some? ==> e.mime in {"image/jpeg", "image/png"})
  }

  /** What the older streamed upload stores. */
  predicate Streamed(e: Evidence) {
    e.confirmed && e.kind == "" && e.mime == "" && e.size == 0 && e.fileKey == ""
  }

  ghost predicate EvidenceFits(items: seq<Evidence>) {
    forall e <- items :: WellFormed(e) || Streamed(e)
  }

  lemma ParsedIsIdentity(kind: string)
    ensures ParseEvidenceType(kind).Some? ==> IsIdentityEvidence(kind)
  {
  }

  lemma KindIsName(kind: string)
    requires IsKind(kind)
    ensures |kind| >= 2 && 'a' <= kind[0] <= 'z' && |kind| <= 128
    ensures forall i :: 0 <= i < |kind| - 1 ==> 'a' <= kind[i] <= 'z' || '0' <= kind[i] <= '9' || kind[i] == '_'
  {
    var name := if IsKindName(kind) then kind else kind[..|kind| - 1];
    forall i | 0 <= i < |kind| - 1 ensures IsKindChar(kind[i]) {
      assert kind[i] == name[i] && name[i] in name;
    }
  }

  lemma ReservedFits(s: State, r: UploadRequest)
    requires GenerateUploadUrl(s, r).outcome == Done
    ensures WellFormed(SlotOf(s.nextPk, r))
    ensures GenerateUploadUrl(s, r).state.evidence == s.evidence + [SlotOf(s.nextPk, r)]
    ensures s.status in {Draft, PendingConsent, Active} && RolePresent(s.parties, r.kind)
  {
    ParsedIsIdentity(r.kind);
    RolePresentFits(s.parties, r.kind);
    KindIsName(r.kind);
    hide ParseEvidenceType, RoleFits, IsIdentityEvidence;
  }

  /** A slot is reserved exactly before a seal, for a well-formed file of a role that is there. */
  lemma ReservesExactly(s: State, r: UploadRequest)
    ensures GenerateUploadUrl(s, r).outcome == Done <==>
      && s.status in {Draft, PendingConsent, Active} && r.storageUp && RolePresent(s.parties, r.kind)
      && r.mime in {"image/jpeg", "image/png", "audio/wav", "audio/ogg", "audio/mpeg", "application/pdf"}
      && IsKind(r.kind) && 1 <= r.size <= 52428800
      && (IsIdentityEvidence(r.kind) ==> r.mime in {"image/jpeg", "image/png"})
  {
    RolePresentFits(s.parties, r.kind);
    hide RoleFits, IsKind, IsIdentityEvidence, RolePresent;
  }

  /** The older streamed upload adds a confirmed item with the file's hash, for a party of the agreement. */
  lemma StreamsExactly(s: State, party: nat, fileHash: string, fileValid: bool)
    ensures UploadEvidence(s, party, fileHash, fileValid).outcome == Done <==>
      fileValid && exists p :: p in s.parties && p.pk == party
    ensures var reply := UploadEvidence(s, party, fileHash, fileValid);
      reply.outcome == Done ==>
        && |reply.state.evidence| == |s.evidence| + 1 && reply.state.evidence[..|s.evidence|] == s.evidence
        && Streamed(reply.state.evidence[|s.evidence|]) && reply.state.evidence[|s.evidence|].fileHash == fileHash
  {
  }

  predicate IsDone(e: Evidence, c: Confirmation) {
    e.confirmed && e.fileKey == c.fileKey && e.kind == c.kind && e.mime == c.mime && e.fileHash == c.checksum
  }

  /** Where nothing waits, a confirmation of what is confirmed already succeeds again, and any other fails. */
  lemma ConfirmsAgainExactly(env: Env, s: State, c: Confirmation)
    requires forall i :: 0 <= i < |s.evidence| ==> !IsMeant(s.evidence[i], c)
    ensures ConfirmUpload(env, s, c).state == s
    ensures ConfirmUpload(env, s, c).outcome == Done <==>
      exists i :: 0 <= i < |s.evidence| && IsDone(s.evidence[i], c)
  {
    hide RoleFits, AfterUpload, IsIdentityEvidence;
    forall i | 0 <= i < |s.evidence| ensures !Awaits(s.evidence[i], c) {
      assert !IsMeant(s.evidence[i], c);
    }
    assert Awaiting(s.evidence, c) == {};
    if AlreadyConfirmed(s.evidence, c) {
      var e :| e in s.evidence && IsDone(e, c);
      var i :| 0 <= i < |s.evidence| && s.evidence[i] == e;
    }
  }

  lemma EvidenceFitsStep(env: Env, s: State, a: Action)
    requires EvidenceFits(s.evidence)
    ensures EvidenceFits(Apply(env, s, a).state.evidence)
  {
    hide SetParties, PatchParties, AddParty, UpdateTerms, GenerateUploadUrl, UploadEvidence, ConfirmUpload;
    hide VerifyIdentity, CreateLivenessSession, ProcessLivenessResult, ResolveManualReview, CleanupReference;
    hide ConfirmByPhone, ConfirmReopenByPhone, VerifyOtp, RequestOtp, RequestReopenOtp, ReissueConsent, SyncConsent;
    hide WellFormed, Streamed;
    match a
    case DoGenerateUploadUrl(r) =>
      if GenerateUploadUrl(s, r).outcome == Done {
        ReservedFits(s, r);
      }
    case DoUploadEvidence(party, hash, valid) => StreamedFits(s, party, hash, valid);
    case DoConfirmUpload(c) => ConfirmedFits(env, s, c);
    case _ => Frame(env, s, a);
  }

  lemma StreamedFits(s: State, party: nat, fileHash: string, fileValid: bool)
    requires EvidenceFits(s.evidence)
    ensures EvidenceFits(UploadEvidence(s, party, fileHash, fileValid).state.evidence)
  {
    hide WellFormed;
  }

  lemma ConfirmedFits(env: Env, s: State, c: Confirmation)
    requires EvidenceFits(s.evidence)
    ensures EvidenceFits(ConfirmUpload(env, s, c).state.evidence)
  {
    hide RoleFits, AfterUpload, IsIdentityEvidence, RolePrefix, ParseEvidenceType;
    var items := ConfirmUpload(env, s, c).state.evidence;
    forall e | e in items ensures WellFormed(e) || Streamed(e) {
      var i :| 0 <= i < |items| && items[i] == e;
      assert s.evidence[i] in s.evidence;
    }
  }

  /** In every run every item is a well-formed upload or a streamed file. */
  lemma {:induction false} AlwaysFitEvidence(env: Env, tr: Trace, n: nat)
    requires tr.Valid(env) && n < |tr.states|
    ensures EvidenceFits(tr.states[n].evidence)
  {
    hide Apply, WellFormed, Streamed;
    if n > 0 {
      AlwaysFitEvidence(env, tr, n - 1);
      assert tr.Follows(env, n - 1);
      EvidenceFitsStep(env, tr.states[n - 1], tr.actions[n - 1]);
    }
  }

  /** In every run an item turns confirmed only by a confirmation that fits it. */
  lemma ConfirmedFitsItem(env: Env, tr: Trace, n: nat, i: nat)
    requires tr.Valid(env) && n < |tr.actions| && i < |tr.states[n].evidence| && i < |tr.states[n + 1].evidence|
    requires !tr.states[n].evidence[i].confirmed && tr.states[n + 1].evidence[i].confirmed
    ensures tr.actions[n].DoConfirmUpload? && FitsItem(tr.states[n].evidence[i], tr.actions[n].confirmation)
  {
    assert tr.Follows(env, n);
    ConfirmsOnly(env, tr.states[n], tr.actions[n], i);
    hide Apply;
  }

  lemma ConfirmsOnly(env: Env, s: State, a: Action, i: nat)
    requires i < |s.evidence| && !s.evidence[i].confirmed
    requires var items := Apply(env, s, a).state.evidence; i < |items| && items[i].confirmed
    ensures a.DoConfirmUpload? && FitsItem(s.evidence[i], a.confirmation)
  {
    hide SetParties, PatchParties, AddParty, UpdateTerms, ConfirmUpload;
    hide VerifyIdentity, CreateLivenessSession, ProcessLivenessResult, ResolveManualReview, CleanupReference;
    hide ConfirmByPhone, ConfirmReopenByPhone, VerifyOtp, RequestOtp, RequestReopenOtp, ReissueConsent, SyncConsent;
    hide IsKind, RoleFits, ParseEvidenceType;
    if a.DoConfirmUpload? {
      ConfirmingNeedsObject(env, s, a.confirmation, i);
    } else if !a.DoGenerateUploadUrl? && !a.DoUploadEvidence? {
      Frame(env, s, a);
    }
  }
}
