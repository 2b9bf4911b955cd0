/** Rounds of consent codes in the phone flow: who has a record, which lookups are safe, and what a
    seal given from PENDING_CONSENT rests on. */
module ConsentTheorems {
  import opened Lifecycle
  import opened Rows
  import opened Policies
  import opened PartySteps
  import opened EvidenceSteps
  import opened IdentitySteps
  import opened SealSteps
  import opened ConsentSteps
  import opened Protocol
  import opened Integrity
  import opened SealTheorems
  import opened ReopenTheorems

  ghost predicate IsConsent(records: map<nat, Record>, k: nat) {
    k in records && records[k].purpose == ForConsent
  }

  /** Every party has exactly one consent record. */
  ghost predicate OneConsentEach(parties: seq<Party>, records: map<nat, Record>) {
    && (forall p <- parties :: exists k :: IsConsent(records, k) && records[k].party == p.pk)
    && (forall k, l ::
          IsConsent(records, k) && IsConsent(records, l) && records[k].party == records[l].party ==> k == l)
  }

  ghost predicate AllGranted(records: map<nat, Record>) {
    forall k :: IsConsent(records, k) ==> records[k].granted
  }

  ghost predicate IsOpen(records: map<nat, Record>, k: nat) {
    k in records && !records[k].granted
  }

  /** No party has two ungranted records of one purpose. */
  ghost predicate OpenUnique(records: map<nat, Record>) {
    forall k, l :: IsOpen(records, k) && IsOpen(records, l)
      && records[k].party == records[l].party && records[k].purpose == records[l].purpose
      ==> k == l
  }

  ghost predicate ConsentInv(s: State) {
    && (s.status != PendingConsent ==> AllGranted(s.records))
    && (s.status == PendingConsent ==> OneConsentEach(s.parties, s.records))
    && (s.status == PendingConsent && s.revisions == [] ==> !AllGranted(s.records))
    && OpenUnique(s.records)
  }

  // ---- all_parties_consented within a round ----

  /** With one record per party, everyone has consented exactly when every record is granted. */
  lemma ConsentedMeansGranted(s: State)
    requires OneConsentEach(s.parties, s.records) && RecordsKept(s) && s.parties != []
    ensures AllPartiesConsented(s) <==> AllGranted(s.records)
  {
    if AllPartiesConsented(s) {
      forall k | IsConsent(s.records, k) ensures s.records[k].granted {
        assert RecordKept(s, k, s.records[k]);
        var p :| p in s.parties && p.pk == s.records[k].party;
        var r :| r in s.records && s.records[r].party == p.pk && s.records[r].purpose == ForConsent
          && s.records[r].granted;
        assert IsConsent(s.records, r);
      }
    }
    if AllGranted(s.records) {
      forall p | p in s.parties ensures PartyConsented(s.records, p.pk) {
        var k :| IsConsent(s.records, k) && s.records[k].party == p.pk;
        forall l | l in s.records && s.records[l].party == p.pk && s.records[l].purpose == ForConsent ensures l == k {
          assert IsConsent(s.records, l);
        }
        assert IsLatest(s.records, k);
      }
    }
  }

  // ---- Preservation, call by call ----

  /** Row k is a fresh record for the i-th party. */
  ghost predicate FreshFor(s: State, rs: map<nat, Record>, purpose: Purpose, k: nat, i: nat)
    requires i < |s.parties|
  {
    && k in rs && k == s.nextPk + i
    && rs[k].party == s.parties[i].pk && rs[k].purpose == purpose && !rs[k].granted
  }

  lemma IssuedFor(env: Env, s: State, purpose: Purpose, codes: seq<string>, i: nat)
    requires i < |s.parties|
    ensures FreshFor(s, IssueCodes(env, s, purpose, codes).records, purpose, s.nextPk + i, i)
  {
    assert s.nextPk + i in NewPks(s.nextPk, |s.parties|);
  }

  /** What issuing a round leaves in the table: the old rows, and fresh ones. */
  lemma IssuedRecord(env: Env, s: State, purpose: Purpose, codes: seq<string>, k: nat) returns (i: nat)
    requires forall k :: k in s.records ==> k < s.nextPk
    requires k in IssueCodes(env, s, purpose, codes).records
    ensures var rs := IssueCodes(env, s, purpose, codes).records;
      if k in s.records then rs[k] == s.records[k] else i < |s.parties| && FreshFor(s, rs, purpose, k, i)
  {
    i := 0;
    if k !in s.records {
      assert k in NewPks(s.nextPk, |s.parties|);
      i := k - s.nextPk;
      IssuedFor(env, s, purpose, codes, i);
    }
  }

  lemma IssueKeepsUnique(env: Env, s: State, purpose: Purpose, codes: seq<string>)
    requires PartiesKeyed(s) && OpenUnique(s.records)
    requires forall k :: k in s.records ==> k < s.nextPk
    requires forall k :: IsOpen(s.records, k) ==> s.records[k].purpose != purpose
    ensures OpenUnique(IssueCodes(env, s, purpose, codes).records)
  {
    hide IssueCodes;
    var rs := IssueCodes(env, s, purpose, codes).records;
    forall k: nat, l: nat | IsOpen(rs, k) && IsOpen(rs, l) && rs[k].party == rs[l].party
      && rs[k].purpose == rs[l].purpose
      ensures k == l
    {
      var i := IssuedRecord(env, s, purpose, codes, k);
      var j := IssuedRecord(env, s, purpose, codes, l);
      assert k in s.records ==> IsOpen(s.records, k);
      assert l in s.records ==> IsOpen(s.records, l);
    }
  }

  lemma RoundGivesOneEach(env: Env, s: State, codes: seq<string>)
    requires PartiesKeyed(s) && s.parties != []
    requires forall k :: k in s.records ==> k < s.nextPk
    requires forall k :: k in s.records ==> s.records[k].purpose != ForConsent
    ensures var rs := IssueCodes(env, s, ForConsent, codes).records; OneConsentEach(s.parties, rs) && !AllGranted(rs)
  {
    var s' := IssueCodes(env, s, ForConsent, codes);
    assert s'.parties == s.parties;
    hide IssueCodes;
    IssuedFor(env, s, ForConsent, codes, 0);
    assert IsConsent(s'.records, s.nextPk + 0);
    forall p | p in s'.parties ensures exists k :: IsConsent(s'.records, k) && s'.records[k].party == p.pk {
      var i: nat :| i < |s.parties| && s.parties[i] == p;
      IssuedFor(env, s, ForConsent, codes, i);
      assert IsConsent(s'.records, s.nextPk + i);
    }
    forall k: nat, l: nat | IsConsent(s'.records, k) && IsConsent(s'.records, l)
      && s'.records[k].party == s'.records[l].party
      ensures k == l
    {
      var i := IssuedRecord(env, s, ForConsent, codes, k);
      var j := IssuedRecord(env, s, ForConsent, codes, l);
    }
  }

  lemma RequestKeepsConsent(env: Env, s: State, codes: seq<string>)
    requires Sound(s) && ConsentInv(s)
    ensures ConsentInv(RequestOtp(env, s, codes).state)
  {
    hide OneConsentEach, RecordKept, AllPartiesConsented, IssueCodes;
    var reply := RequestOtp(env, s, codes);
    if reply.outcome == Done {
      var cleared := s.(status := PendingConsent, records := DropConsent(s.records));
      RecordsKeyed(s);
      assert OpenUnique(cleared.records) by {
        assert forall k :: IsOpen(cleared.records, k) ==> IsOpen(s.records, k);
      }
      RoundGivesOneEach(env, cleared, codes);
      IssueKeepsUnique(env, cleared, ForConsent, codes);
    }
  }

  lemma RecordsKeyed(s: State)
    requires RecordsKept(s)
    ensures forall k :: k in s.records ==> k < s.nextPk && s.records[k].party in PartyPks(s.parties)
  {
    forall k | k in s.records ensures k < s.nextPk && s.records[k].party in PartyPks(s.parties) {
      assert RecordKept(s, k, s.records[k]);
    }
  }

  lemma ConfirmKeepsConsent(env: Env, s: State, phone: string, code: string)
    requires Sound(s) && ConsentInv(s)
    ensures ConsentInv(ConfirmByPhone(env, s, phone, code).state)
    ensures ConfirmByPhone(env, s, phone, code).outcome != Rejected(MultipleRows)
    ensures !exists r :: ConfirmByPhone(env, s, phone, code).outcome == Rejected(Undone(r))
  {
    hide Judge, OneConsentEach, RecordKept, OpenUnique, AllPartiesConsented;
    var v := Judge(env, s, s.consentTries, ForConsent, phone, code);
    LookupIsUnique(env, s, s.consentTries, ForConsent, phone, code);
    if v.Right? {
      RightConfirmKeepsConsent(env, s, phone, code, v.r);
    }
  }

  /** The `.get` of an ungranted record never meets two rows. */
  lemma LookupIsUnique(env: Env, s: State, tries: map<nat, Counter>, purpose: Purpose, phone: string, code: string)
    requires OpenUnique(s.records)
    ensures !Judge(env, s, tries, purpose, phone, code).ManyRows?
  {
    var found := PartyByPhone(env.text, s.parties, phone);
    if found.Some? {
      var rows := OpenRecords(s.records, found.value.pk, purpose);
      if rows != {} {
        var k :| k in rows;
        forall l | l in rows ensures l == k {
          assert IsOpen(s.records, k) && IsOpen(s.records, l);
        }
        assert rows == {k};
      }
    }
  }

  lemma RightConfirmKeepsConsent(env: Env, s: State, phone: string, code: string, r: nat)
    requires Sound(s) && ConsentInv(s)
    requires Judge(env, s, s.consentTries, ForConsent, phone, code) == Right(r)
    ensures var reply := ConfirmByPhone(env, s, phone, code); ConsentInv(reply.state) && reply.outcome == Done
  {
    hide OneConsentEach, RecordKept, AllPartiesConsented, CodeFits, OpenUnique;
    RightIsOpen(env, s, s.consentTries, ForConsent, phone, code);
    assert IsConsent(s.records, r);
    assert s.status == PendingConsent;
    assert s.records[r].expiresAt >= s.now by { RightIsFresh(env, s, phone, code, r); }
    hide Judge;
    var g := s.(records := GrantRecord(s.records, r, s.now), consentTries := s.consentTries - {r});
    GrantKeepsUnique(s.records, r, s.now);
    GrantKeepsEach(s, g, r);
    GrantKeepsRows(s, g, r);
    assert s.parties != [] by { assert s.records[r].party in PartyPks(s.parties); }
    ConsentedMeansGranted(g);
  }

  lemma RightIsFresh(env: Env, s: State, phone: string, code: string, r: nat)
    requires Judge(env, s, s.consentTries, ForConsent, phone, code) == Right(r)
    ensures r in s.records && s.records[r].expiresAt >= s.now
  {
  }

  lemma GrantKeepsRows(s: State, g: State, r: nat)
    requires RecordsKept(s) && r in s.records && s.records[r].expiresAt >= s.now
    requires g == s.(records := GrantRecord(s.records, r, s.now), consentTries := g.consentTries)
    requires g.consentTries.Keys <= s.consentTries.Keys
    ensures RecordsKept(g)
  {
    GrantKeepsRecords(s, r);
    forall k | k in g.records ensures RecordKept(g, k, g.records[k]) {
      assert RecordKept(s.(records := g.records), k, g.records[k]);
    }
  }

  lemma GrantKeepsEach(s: State, g: State, r: nat)
    requires OneConsentEach(s.parties, s.records) && r in s.records
    requires g.parties == s.parties && g.records == GrantRecord(s.records, r, s.now)
    ensures OneConsentEach(g.parties, g.records)
  {
    assert forall k :: IsConsent(g.records, k) <==> IsConsent(s.records, k);
    forall p | p in g.parties ensures exists k :: IsConsent(g.records, k) && g.records[k].party == p.pk {
      var k :| IsConsent(s.records, k) && s.records[k].party == p.pk;
      assert IsConsent(g.records, k);
    }
  }

  lemma GrantKeepsUnique(records: map<nat, Record>, r: nat, now: int)
    requires r in records && OpenUnique(records)
    ensures OpenUnique(GrantRecord(records, r, now))
  {
    var after := GrantRecord(records, r, now);
    assert forall k :: IsOpen(after, k) ==> IsOpen(records, k) && after[k] == records[k];
  }

  lemma ReopenRequestKeepsConsent(env: Env, s: State, codes: seq<string>)
    requires Sound(s) && ConsentInv(s)
    ensures ConsentInv(RequestReopenOtp(env, s, codes).state)
  {
    hide RecordKept, IssueCodes;
    var reply := RequestReopenOtp(env, s, codes);
    if reply.outcome == Done {
      var cleared := s.(records := DropOpenReopen(s.records));
      RecordsKeyed(s);
      assert forall k :: IsOpen(cleared.records, k) ==> IsOpen(s.records, k);
      IssueKeepsUnique(env, cleared, ForReopen, codes);
      ReopenRoundKeepsGranted(env, cleared, codes);
      assert reply.state.records == IssueCodes(env, cleared, ForReopen, codes).records;
    }
  }

  lemma ReopenRoundKeepsGranted(env: Env, s: State, codes: seq<string>)
    requires forall k :: k in s.records ==> k < s.nextPk
    requires AllGranted(s.records)
    ensures AllGranted(IssueCodes(env, s, ForReopen, codes).records)
  {
    hide IssueCodes;
    var rs := IssueCodes(env, s, ForReopen, codes).records;
    forall k: nat | IsConsent(rs, k) ensures rs[k].granted {
      var i := IssuedRecord(env, s, ForReopen, codes, k);
      assert k in s.records ==> IsConsent(s.records, k);
    }
  }

  lemma ReopenConfirmKeepsConsent(env: Env, s: State, phone: string, code: string)
    requires Sound(s) && ConsentInv(s)
    ensures ConsentInv(ConfirmReopenByPhone(env, s, phone, code).state)
    ensures ConfirmReopenByPhone(env, s, phone, code).outcome != Rejected(MultipleRows)
  {
    hide Judge, OneConsentEach, OpenUnique, RecordKept, AllPartiesConfirmedReopen, AllGranted;
    var v := Judge(env, s, s.reopenTries, ForReopen, phone, code);
    LookupIsUnique(env, s, s.reopenTries, ForReopen, phone, code);
    if v.Right? {
      RightIsOpen(env, s, s.reopenTries, ForReopen, phone, code);
      GrantKeepsUnique(s.records, v.r, s.now);
      ReopenGrantKeepsConsent(s.parties, s.records, v.r, s.now);
    }
  }

  lemma ReopenGrantKeepsConsent(parties: seq<Party>, records: map<nat, Record>, r: nat, now: int)
    requires r in records && records[r].purpose == ForReopen
    ensures AllGranted(records) <==> AllGranted(GrantRecord(records, r, now))
    ensures OneConsentEach(parties, records) ==> OneConsentEach(parties, GrantRecord(records, r, now))
  {
    var after := GrantRecord(records, r, now);
    assert forall k :: IsConsent(after, k) <==> IsConsent(records, k);
    assert forall k :: IsConsent(after, k) ==> after[k] == records[k];
  }

  /** A call that leaves the records alone moves the status only along edges that keep the round. */
  lemma OtherCallsKeepConsent(env: Env, s: State, a: Action)
    requires Sound(s) && ConsentInv(s) && PhoneFlow(a) && !EditsRecords(a)
    ensures ConsentInv(Apply(env, s, a).state)
  {
    hide SetParties, PatchAll, AddParty, UpdateTerms, GenerateUploadUrl, UploadEvidence, ConfirmUpload;
    hide VerifyIdentity, CreateLivenessSession, ProcessLivenessResult, ResolveManualReview, CleanupReference;
    hide ConfirmByPhone, ConfirmReopenByPhone, VerifyOtp, RequestOtp, RequestReopenOtp, ReissueConsent;
    hide AllGranted, OneConsentEach, OpenUnique, Sound;
    var s' := Apply(env, s, a).state;
    Frame(env, s, a);
    StatusStep(env, s, a);
    if a.DoSeal? && a.planAllows && s.status == PendingConsent && s' != s {
      SealedMeansGranted(env, s, a.planAllows);
    } else if s.status == PendingConsent {
      assert s'.status == PendingConsent;
    }
  }

  lemma SealedMeansGranted(env: Env, s: State, planAllows: bool)
    requires Sound(s) && ConsentInv(s) && s.status == PendingConsent
    requires Seal(env, s, planAllows).outcome == Done
    ensures AllGranted(s.records)
  {
    hide RecordKept, ValidNow;
    assert AllPartiesConsented(s);
    ConsentedMeansGranted(s);
  }

  lemma KeepsConsent(env: Env, s: State, a: Action)
    requires Sound(s) && ConsentInv(s) && PhoneFlow(a)
    ensures ConsentInv(Apply(env, s, a).state)
  {
    hide OneConsentEach, OpenUnique, AllGranted, RecordKept;
    if a.DoSetParties? {
      SettingKeepsConsent(env, s, a.initiatorKeys, a.inputs);
    } else if a.DoRequestOtp? {
      RequestKeepsConsent(env, s, a.codes);
    } else if a.DoConfirmByPhone? {
      ConfirmKeepsConsent(env, s, a.phone, a.code);
    } else if a.DoRequestReopenOtp? {
      ReopenRequestKeepsConsent(env, s, a.codes);
    } else if a.DoConfirmReopenByPhone? {
      ReopenConfirmKeepsConsent(env, s, a.phone, a.code);
    } else {
      OtherCallsKeepConsent(env, s, a);
    }
  }

  lemma SettingKeepsConsent(env: Env, s: State, keys: set<string>, inputs: seq<PartyInput>)
    requires Sound(s) && ConsentInv(s)
    ensures ConsentInv(SetParties(env, s, keys, inputs).state)
  {
    SettingKeepsRecords(env, s, keys, inputs);
    hide NewParties, NewChecks, RecordsWithout, SetFault;
    var s' := SetParties(env, s, keys, inputs).state;
    assert s'.status == s.status;
  }

  lemma KeepsConsentAt(env: Env, tr: Trace, i: nat)
    requires tr.Valid(env) && tr.Phone() && i < |tr.actions| && ConsentInv(tr.states[i])
    ensures ConsentInv(tr.states[i + 1])
  {
    hide Apply, ConsentInv;
    AlwaysSound(env, tr, i);
    assert tr.Follows(env, i);
    assert tr.actions[i] in tr.actions;
    KeepsConsent(env, tr.states[i], tr.actions[i]);
  }

  /** In every state of every phone-flow run: ungranted consent records live only in PENDING_CONSENT,
      where each party has exactly one and, before the first revision, some are still open. */
  lemma {:induction false} ConsentRounds(env: Env, tr: Trace, n: nat)
    requires tr.Valid(env) && tr.Phone() && n < |tr.states|
    ensures ConsentInv(tr.states[n])
  {
    hide Apply, PhoneFlow;
    if n > 0 {
      ConsentRounds(env, tr, n - 1);
      KeepsConsentAt(env, tr, n - 1);
    }
  }

  /** Hence no confirmation of a phone-flow run meets two rows, and a right consent code is never
      undone by an illegal transition. */
  lemma ConfirmationsNeverBreak(env: Env, tr: Trace, n: nat, phone: string, code: string)
    requires tr.Valid(env) && tr.Phone() && n < |tr.states|
    ensures ConfirmByPhone(env, tr.states[n], phone, code).outcome != Rejected(MultipleRows)
    ensures ConfirmReopenByPhone(env, tr.states[n], phone, code).outcome != Rejected(MultipleRows)
    ensures forall r :: ConfirmByPhone(env, tr.states[n], phone, code).outcome != Rejected(Undone(r))
  {
    hide Apply, ConsentInv, ConfirmByPhone, ConfirmReopenByPhone;
    ConsentRounds(env, tr, n);
    AlwaysSound(env, tr, n);
    ConfirmKeepsConsent(env, tr.states[n], phone, code);
    ReopenConfirmKeepsConsent(env, tr.states[n], phone, code);
  }
}
