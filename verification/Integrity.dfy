/** What the database's keys and cascades keep true at every step of every run. */
module Integrity {
  import opened Text
  import opened Lifecycle
  import opened Rows
  import opened PartyIdentity
  import opened Policies
  import opened IdentitySteps
  import opened PartySteps
  import opened EvidenceSteps
  import opened ConsentSteps
  import opened Protocol
  import opened AgreementDb

  ghost predicate PartiesKeyed(s: State) {
    && (forall i, j :: 0 <= i < j < |s.parties| ==> s.parties[i].pk != s.parties[j].pk)
    && (forall i, j :: 0 <= i < j < |s.parties| ==> s.parties[i].role != s.parties[j].role)
    && (forall p <- s.parties :: p.pk < s.nextPk)
  }

  ghost predicate EvidenceKeyed(s: State) {
    && DistinctEvidencePks(s.evidence)
    && (forall e <- s.evidence :: e.pk < s.nextPk)
  }

  ghost predicate RecordKept(s: State, k: nat, r: Record) {
    && k < s.nextPk
    && r.party in PartyPks(s.parties)
    && r.createdAt <= s.now
    && r.expiresAt == r.createdAt + OTP_LIFE_SECONDS
    && r.granted == r.grantedAt.Some?
    && (r.granted ==> r.createdAt <= r.grantedAt.value <= r.expiresAt)
  }

  ghost predicate RecordsKept(s: State) {
    && (forall k :: k in s.records ==> RecordKept(s, k, s.records[k]))
    && (forall k :: k in s.consentTries || k in s.reopenTries ==> k < s.nextPk)
  }

  ghost predicate ChecksKept(s: State) {
    forall k :: k in s.verifications ==> k in PartyPks(s.parties)
  }

  ghost predicate Sound(s: State) {
    PartiesKeyed(s) && EvidenceKeyed(s) && RecordsKept(s) && ChecksKept(s)
  }

  // ---- Patching keeps keys and roles ----

  /** Same keys and roles, row by row. */
  ghost predicate SameSlots(a: seq<Party>, b: seq<Party>) {
    |a| == |b| && forall i :: 0 <= i < |a| ==> a[i].pk == b[i].pk && a[i].role == b[i].role
  }

  lemma SameSlotsSamePks(a: seq<Party>, b: seq<Party>)
    requires SameSlots(a, b)
    ensures PartyPks(a) == PartyPks(b) && PartyRoles(a) == PartyRoles(b)
  {
    forall i | 0 <= i < |a| ensures a[i].pk in PartyPks(b) && a[i].role in PartyRoles(b) {
      assert b[i] in b;
    }
    forall i | 0 <= i < |b| ensures b[i].pk in PartyPks(a) && b[i].role in PartyRoles(a) {
      assert a[i] in a;
    }
  }

  lemma {:induction false} PatchKeepsSlots(t: Alphabet, parties: seq<Party>, checks: map<nat, Verification>,
      patches: seq<PartyPatch>)
    requires PatchAll(t, parties, checks, patches).PatchDone?
    ensures SameSlots(parties, PatchAll(t, parties, checks, patches).parties)
    ensures PatchAll(t, parties, checks, patches).checks.Keys <= checks.Keys + PartyPks(parties)
  {
    if patches != [] {
      PatchKeepsSlots(t, parties, checks, patches[..|patches| - 1]);
      var mid := PatchAll(t, parties, checks, patches[..|patches| - 1]);
      PatchOneKeepsSlots(t, mid.parties, mid.checks, patches[|patches| - 1]);
      SameSlotsSamePks(parties, mid.parties);
    }
  }

  lemma PatchOneKeepsSlots(t: Alphabet, parties: seq<Party>, checks: map<nat, Verification>, patch: PartyPatch)
    requires PatchOne(t, parties, checks, patch).PatchDone?
    ensures SameSlots(parties, PatchOne(t, parties, checks, patch).parties)
    ensures PatchOne(t, parties, checks, patch).checks.Keys <= checks.Keys + PartyPks(parties)
  {
    var i := IndexOfRole(parties, patch.role).value;
    assert parties[i] in parties;
  }

  // ---- What each step leaves alone ----

  predicate EditsParties(a: Action) {
    a.DoAddParty? || a.DoSetParties? || a.DoPatchParties?
  }

  predicate EditsEvidence(a: Action) {
    a.DoGenerateUploadUrl? || a.DoConfirmUpload? || a.DoUploadEvidence?
  }

  predicate EditsRecords(a: Action) {
    a.DoSetParties? || a.DoRequestOtp? || a.DoReissueConsent? || a.DoRequestReopenOtp?
    || a.DoConfirmByPhone? || a.DoVerifyOtp? || a.DoConfirmReopenByPhone?
  }

  predicate EditsChecks(a: Action) {
    a.DoSetParties? || a.DoPatchParties? || a.DoConfirmUpload? || a.DoVerifyIdentity? || a.DoCreateLiveness?
    || a.DoProcessLiveness? || a.DoResolveReview? || a.DoCleanupReference?
  }

  lemma Frame(env: Env, s: State, a: Action)
    ensures var s' := Apply(env, s, a).state;
      && (!EditsParties(a) ==> s'.parties == s.parties)
      && (!EditsEvidence(a) ==> s'.evidence == s.evidence)
      && (!EditsRecords(a) ==>
            s'.records == s.records && s'.consentTries == s.consentTries && s'.reopenTries == s.reopenTries)
      && (!EditsChecks(a) ==> s'.verifications == s.verifications)
      && s.now <= s'.now && s.nextPk <= s'.nextPk
      && (!a.Elapse? ==> s'.now == s.now)
      && (!a.DoUpdateDraft? && !a.DoUpdateActive? ==> s'.terms == s.terms)
      && (!a.DoConfirmReopenByPhone? ==> s'.revisions == s.revisions)
  {
  }

  // ---- Preservation ----

  lemma KeepsParties(env: Env, s: State, a: Action)
    requires PartiesKeyed(s)
    ensures PartiesKeyed(Apply(env, s, a).state)
  {
    Frame(env, s, a);
    if a.DoPatchParties? {
      PatchingKeepsParties(env, s, a.patches);
    } else if a.DoSetParties? {
      SettingKeepsParties(env, s, a.initiatorKeys, a.inputs);
    } else if a.DoAddParty? {
      AddingKeepsParties(s, a.role, a.displayName, a.identityExists);
    }
  }

  lemma AddingKeepsParties(s: State, role: string, displayName: string, identityExists: bool)
    requires PartiesKeyed(s)
    ensures PartiesKeyed(AddParty(s, role, displayName, identityExists).state)
  {
    forall p | p in s.parties && role !in PartyRoles(s.parties) ensures p.role != role {
    }
  }

  lemma SettingKeepsParties(env: Env, s: State, keys: set<string>, inputs: seq<PartyInput>)
    requires PartiesKeyed(s)
    ensures PartiesKeyed(SetParties(env, s, keys, inputs).state)
  {
    var ps := NewParties(env.text, s.nextPk, inputs);
    assert forall i :: 0 <= i < |ps| ==> ps[i].pk == s.nextPk + i && ps[i].role == inputs[i].role;
  }

  lemma PatchingKeepsParties(env: Env, s: State, patches: seq<PartyPatch>)
    requires PartiesKeyed(s)
    ensures PartiesKeyed(PatchParties(env, s, patches).state)
  {
    var r := PatchAll(env.text, s.parties, s.verifications, patches);
    if r.PatchDone? {
      PatchKeepsSlots(env.text, s.parties, s.verifications, patches);
      forall p | p in r.parties ensures p.pk < s.nextPk {
        var i :| 0 <= i < |r.parties| && r.parties[i] == p;
        assert s.parties[i] in s.parties;
      }
    }
  }

  /** Evidence rows are only appended and only turn confirmed. */
  ghost predicate EvidenceGrows(a: seq<Evidence>, b: seq<Evidence>) {
    && |a| <= |b|
    && forall i :: 0 <= i < |a| ==> b[i] == a[i] || b[i] == a[i].(confirmed := true)
  }

  lemma EvidenceStep(env: Env, s: State, a: Action)
    ensures EvidenceGrows(s.evidence, Apply(env, s, a).state.evidence)
  {
    Frame(env, s, a);
  }

  lemma KeepsEvidence(env: Env, s: State, a: Action)
    requires EvidenceKeyed(s)
    ensures EvidenceKeyed(Apply(env, s, a).state)
  {
    Frame(env, s, a);
    EvidenceStep(env, s, a);
    NewEvidence(env, s, a);
    hide Apply;
  }

  /** At most one row is appended, under the next key. */
  lemma NewEvidence(env: Env, s: State, a: Action)
    ensures var s' := Apply(env, s, a).state;
      |s'.evidence| == |s.evidence|
      || (|s'.evidence| == |s.evidence| + 1 && s'.evidence[|s.evidence|].pk == s.nextPk && s'.nextPk == s.nextPk + 1)
  {
    Frame(env, s, a);
  }

  // ---- Records ----

  lemma IssueKeepsRecords(env: Env, s: State, purpose: Purpose, codes: seq<string>)
    requires RecordsKept(s)
    ensures RecordsKept(IssueCodes(env, s, purpose, codes))
  {
    var s' := IssueCodes(env, s, purpose, codes);
    forall k | k in s'.records ensures RecordKept(s', k, s'.records[k]) {
      if k in NewPks(s.nextPk, |s.parties|) {
        assert s.parties[k - s.nextPk] in s.parties;
      } else {
        assert RecordKept(s, k, s.records[k]);
      }
    }
  }

  lemma GrantKeepsRecords(s: State, r: nat)
    requires RecordsKept(s) && r in s.records && s.records[r].expiresAt >= s.now
    ensures RecordsKept(s.(records := GrantRecord(s.records, r, s.now)))
  {
    assert RecordKept(s, r, s.records[r]);
  }

  lemma KeepsRecordsByFrame(s: State, s': State)
    requires RecordsKept(s)
    requires s'.records == s.records && s'.consentTries == s.consentTries && s'.reopenTries == s.reopenTries
    requires s.now <= s'.now && s.nextPk <= s'.nextPk && PartyPks(s.parties) <= PartyPks(s'.parties)
    ensures RecordsKept(s')
  {
    forall k | k in s'.records ensures RecordKept(s', k, s'.records[k]) {
      assert RecordKept(s, k, s.records[k]);
    }
  }

  lemma JudgedRow(env: Env, s: State, tries: map<nat, Counter>, purpose: Purpose, phone: string, code: string, r: nat)
    requires RecordsKept(s) && Judge(env, s, tries, purpose, phone, code) in {Wrong(r), Right(r)}
    ensures r in s.records && r < s.nextPk
    ensures Judge(env, s, tries, purpose, phone, code) == Right(r) ==> s.records[r].expiresAt >= s.now
  {
    assert r in s.records;
    assert RecordKept(s, r, s.records[r]);
  }

  lemma ConfirmKeepsRecords(env: Env, s: State, phone: string, code: string)
    requires RecordsKept(s)
    ensures RecordsKept(ConfirmByPhone(env, s, phone, code).state)
  {
    hide RecordKept, Judge, AllPartiesConsented, GrantRecord;
    var s' := ConfirmByPhone(env, s, phone, code).state;
    var v := Judge(env, s, s.consentTries, ForConsent, phone, code);
    var judged := s.(records := s'.records, consentTries := s'.consentTries);
    if v.Right? || v.Wrong? {
      JudgedRow(env, s, s.consentTries, ForConsent, phone, code, v.r);
    }
    if v.Right? {
      GrantKeepsRecords(s, v.r);
    }
    TriesDoNotMatter(s, judged);
    KeepsRecordsByFrame(judged, s');
  }

  /** The counters only need keys below the next one. */
  lemma TriesDoNotMatter(s: State, judged: State)
    requires RecordsKept(s.(records := judged.records))
    requires judged == s.(
      records := judged.records, consentTries := judged.consentTries, reopenTries := judged.reopenTries)
    requires forall k :: k in judged.consentTries || k in judged.reopenTries ==> k < s.nextPk
    ensures RecordsKept(judged)
  {
    var t := s.(records := judged.records);
    forall k | k in judged.records ensures RecordKept(judged, k, judged.records[k]) {
      assert RecordKept(t, k, t.records[k]);
    }
  }

  lemma ConfirmReopenKeepsRecords(env: Env, s: State, phone: string, code: string)
    requires RecordsKept(s)
    ensures RecordsKept(ConfirmReopenByPhone(env, s, phone, code).state)
  {
    hide RecordKept, Judge, AllPartiesConfirmedReopen, GrantRecord;
    var s' := ConfirmReopenByPhone(env, s, phone, code).state;
    var v := Judge(env, s, s.reopenTries, ForReopen, phone, code);
    var judged := s.(records := s'.records, reopenTries := s'.reopenTries);
    if v.Right? || v.Wrong? {
      JudgedRow(env, s, s.reopenTries, ForReopen, phone, code, v.r);
    }
    if v.Right? {
      GrantKeepsRecords(s, v.r);
    }
    TriesDoNotMatter(s, judged);
    KeepsRecordsByFrame(judged, s');
  }

  lemma VerifyKeepsRecords(env: Env, s: State, r: nat, code: string)
    requires RecordsKept(s)
    ensures RecordsKept(VerifyOtp(env, s, r, code).state)
  {
    var s' := VerifyOtp(env, s, r, code).state;
    if r in s.records && CodeFits(env, s, r, code) {
      GrantKeepsRecords(s, r);
    }
    KeepsRecordsByFrame(s.(records := s'.records, consentTries := s'.consentTries), s');
  }

  lemma SettingKeepsRecords(env: Env, s: State, keys: set<string>, inputs: seq<PartyInput>)
    requires RecordsKept(s)
    ensures RecordsKept(SetParties(env, s, keys, inputs).state)
    ensures SetParties(env, s, keys, inputs).outcome == Done ==> SetParties(env, s, keys, inputs).state.records == map[]
  {
    assert forall k :: k in s.records ==> RecordKept(s, k, s.records[k]);
    assert RecordsWithout(s.records, PartyPks(s.parties)) == map[];
  }

  lemma PatchingKeepsPks(env: Env, s: State, patches: seq<PartyPatch>)
    ensures PartyPks(PatchParties(env, s, patches).state.parties) == PartyPks(s.parties)
  {
    var r := PatchAll(env.text, s.parties, s.verifications, patches);
    if r.PatchDone? {
      PatchKeepsSlots(env.text, s.parties, s.verifications, patches);
      SameSlotsSamePks(s.parties, r.parties);
    }
  }

  lemma FewerRecords(s: State, t: State)
    requires RecordsKept(s) && t == s.(status := t.status, records := t.records)
    requires forall k :: k in t.records ==> k in s.records && t.records[k] == s.records[k]
    ensures RecordsKept(t)
  {
    forall k | k in t.records ensures RecordKept(t, k, t.records[k]) {
      assert RecordKept(s, k, s.records[k]);
    }
  }

  lemma RequestKeepsRecords(env: Env, s: State, codes: seq<string>)
    requires RecordsKept(s)
    ensures RecordsKept(RequestOtp(env, s, codes).state)
    ensures RecordsKept(ReissueConsent(env, s, codes).state)
    ensures RecordsKept(RequestReopenOtp(env, s, codes).state)
  {
    hide RecordsKept, IssueCodes, AllPartiesConsented;
    var pending := s.(status := PendingConsent, records := DropConsent(s.records));
    var cleared := s.(records := DropConsent(s.records));
    var reopening := s.(records := DropOpenReopen(s.records));
    FewerRecords(s, pending);
    FewerRecords(s, cleared);
    FewerRecords(s, reopening);
    IssueKeepsRecords(env, pending, ForConsent, codes);
    IssueKeepsRecords(env, cleared, ForConsent, codes);
    IssueKeepsRecords(env, reopening, ForReopen, codes);
  }

  lemma KeepsRecords(env: Env, s: State, a: Action)
    requires RecordsKept(s)
    ensures RecordsKept(Apply(env, s, a).state)
  {
    hide RecordsKept, IssueCodes, SetParties, ConfirmByPhone, ConfirmReopenByPhone, VerifyOtp;
    hide RequestOtp, ReissueConsent, RequestReopenOtp;
    var s' := Apply(env, s, a).state;
    Frame(env, s, a);
    if a.DoSetParties? {
      SettingKeepsRecords(env, s, a.initiatorKeys, a.inputs);
    } else if a.DoRequestOtp? || a.DoReissueConsent? || a.DoRequestReopenOtp? {
      RequestKeepsRecords(env, s, a.codes);
    } else if a.DoConfirmByPhone? {
      ConfirmKeepsRecords(env, s, a.phone, a.code);
    } else if a.DoConfirmReopenByPhone? {
      ConfirmReopenKeepsRecords(env, s, a.phone, a.code);
    } else if a.DoVerifyOtp? {
      VerifyKeepsRecords(env, s, a.record, a.code);
    } else {
      if a.DoAddParty? {
        assert forall p <- s.parties :: p in s'.parties;
      } else if a.DoPatchParties? {
        PatchingKeepsPks(env, s, a.patches);
      }
      KeepsRecordsByFrame(s, s');
    }
  }

  // ---- Verification rows ----

  lemma SettingKeepsChecks(env: Env, s: State, keys: set<string>, inputs: seq<PartyInput>)
    requires ChecksKept(s)
    ensures ChecksKept(SetParties(env, s, keys, inputs).state)
  {
  }

  lemma PatchingKeepsChecks(env: Env, s: State, patches: seq<PartyPatch>)
    requires ChecksKept(s)
    ensures ChecksKept(PatchParties(env, s, patches).state)
  {
    PatchingKeepsPks(env, s, patches);
    if PatchAll(env.text, s.parties, s.verifications, patches).PatchDone? {
      PatchKeepsSlots(env.text, s.parties, s.verifications, patches);
    }
  }

  lemma ConfirmingKeepsChecks(env: Env, s: State, c: Confirmation)
    requires ChecksKept(s)
    ensures ChecksKept(ConfirmUpload(env, s, c).state)
  {
  }

  lemma KeepsChecks(env: Env, s: State, a: Action)
    requires ChecksKept(s)
    ensures ChecksKept(Apply(env, s, a).state)
  {
    Frame(env, s, a);
    var s' := Apply(env, s, a).state;
    if a.DoPatchParties? {
      PatchingKeepsChecks(env, s, a.patches);
    } else if a.DoSetParties? {
      SettingKeepsChecks(env, s, a.initiatorKeys, a.inputs);
    } else if a.DoConfirmUpload? {
      ConfirmingKeepsChecks(env, s, a.confirmation);
    } else if a.DoVerifyIdentity? || a.DoCreateLiveness? || a.DoProcessLiveness? || a.DoResolveReview?
      || a.DoCleanupReference? {
      assert OnlyRow(s.verifications, s'.verifications, a.party, s.parties);
      forall k | k in s'.verifications ensures k in PartyPks(s'.parties) {
        assert k != a.party ==> k in s'.verifications - {a.party};
      }
    } else if a.DoAddParty? {
      assert forall p <- s.parties :: p in s'.parties;
    }
  }

  lemma KeepsSound(env: Env, s: State, a: Action)
    requires Sound(s)
    ensures Sound(Apply(env, s, a).state)
  {
    KeepsParties(env, s, a);
    KeepsEvidence(env, s, a);
    KeepsRecords(env, s, a);
    KeepsChecks(env, s, a);
  }

  lemma {:induction false} AlwaysSound(env: Env, tr: Trace, n: nat)
    requires tr.Valid(env) && n < |tr.states|
    ensures Sound(tr.states[n])
  {
    if n > 0 {
      AlwaysSound(env, tr, n - 1);
      assert tr.Follows(env, n - 1);
      KeepsSound(env, tr.states[n - 1], tr.actions[n - 1]);
    }
  }

  /** So the services' methods may be called in every state a run reaches. */
  lemma AlwaysLinked(env: Env, tr: Trace, n: nat)
    requires tr.Valid(env) && n < |tr.states|
    ensures Linked(tr.states[n])
  {
    hide Apply;
    AlwaysSound(env, tr, n);
    var s := tr.states[n];
    forall k | k in s.records ensures s.records[k].party in PartyPks(s.parties) {
      assert RecordKept(s, k, s.records[k]);
    }
  }
}
