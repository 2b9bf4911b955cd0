/** consent/services.py: the methods that issue and confirm codes, in place. */
module ConsentService {
  import opened Wrappers
  import opened Text
  import opened Lifecycle
  import opened Rows
  import opened Phones
  import opened Policies
  import opened ConsentSteps
  import opened AgreementDb
  import opened ConsentSelectors
  import opened AgreementService
  import opened SealSteps

  /** _get_party_by_phone; None is Party.DoesNotExist. */
  method GetPartyByPhone(t: Alphabet, parties: seq<Party>, phone: string) returns (found: Option<Party>)
    ensures found == PartyByPhone(t, parties, phone)
  {
    var key := CompareKey(t, phone);
    for i := 0 to |parties|
      invariant PartyByPhone(t, parties, phone) == PartyByPhone(t, parties[i..], phone)
    {
      if CompareKey(t, parties[i].phone) == key {
        return Some(parties[i]);
      }
    }
    return None;
  }

  /** The rows of the first n parties of a round. */
  function Issued(env: Env, s: State, purpose: Purpose, codes: seq<string>, n: nat): map<nat, Record>
    requires n <= |s.parties|
  {
    map pk | pk in NewPks(s.nextPk, n) :: RoundRecord(env, s, purpose, codes, pk - s.nextPk)
  }

  lemma OneMoreIssued(env: Env, s: State, purpose: Purpose, codes: seq<string>, n: nat)
    requires n < |s.parties|
    ensures s.records + Issued(env, s, purpose, codes, n + 1) ==
      (s.records + Issued(env, s, purpose, codes, n))[s.nextPk + n := RoundRecord(env, s, purpose, codes, n)]
  {
  }

  lemma NoneIssued(env: Env, s: State, purpose: Purpose, codes: seq<string>)
    ensures s.records + Issued(env, s, purpose, codes, 0) == s.records
  {
  }

  method CreateRecord(db: Db, record: Record)
    modifies db`records, db`nextPk
    ensures db.records == old(db.records)[old(db.nextPk) := record] && db.nextPk == old(db.nextPk) + 1
  {
    db.records := db.records[db.nextPk := record];
    db.nextPk := db.nextPk + 1;
  }

  /** _issue_party_otps */
  method IssuePartyOtps(env: Env, db: Db, purpose: Purpose, codes: seq<string>)
    modifies db`records, db`nextPk
    ensures db.View() == IssueCodes(env, old(db.View()), purpose, codes)
  {
    ghost var s := db.View();
    var parties, now := db.parties, db.now;
    NoneIssued(env, s, purpose, codes);
    for i := 0 to |parties|
      invariant db.nextPk == s.nextPk + i
      invariant db.records == s.records + Issued(env, s, purpose, codes, i)
    {
      OneMoreIssued(env, s, purpose, codes, i);
      hide Issued, NewPks, IssueCodes;
      CreateRecord(db, Record(
          parties[i].pk, purpose, env.otpHash(CodeAt(codes, i)), false, None, now, now + OTP_LIFE_SECONDS));
    }
  }

  /** request_otp */
  method RequestConsentOtp(env: Env, db: Db, codes: seq<string>) returns (outcome: Outcome)
    requires Linked(db.View())
    modifies db`status, db`records, db`nextPk
    ensures Reply(db.View(), outcome) == RequestOtp(env, old(db.View()), codes)
  {
    if !CanRequestConsent(db.View()) {
      return Rejected(WrongStatus);
    }
    if db.status == PendingConsent {
      var all := AllConsented(db.parties, db.records);
      if all {
        return Rejected(AlreadyConsented);
      }
    } else {
      var moved := MoveStatus(db, RequestConsentMove);
      if moved.Rejected? {
        return moved;
      }
    }
    db.records := DropConsent(db.records);
    IssuePartyOtps(env, db, ForConsent, codes);
    return Done;
  }

  /** request_reopen_otp */
  method RequestReopenCodes(env: Env, db: Db, codes: seq<string>) returns (outcome: Outcome)
    modifies db`records, db`nextPk
    ensures Reply(db.View(), outcome) == RequestReopenOtp(env, old(db.View()), codes)
  {
    if db.status != ReopenRequested {
      return Rejected(WrongStatus);
    }
    var savepoint := db.records;
    db.records := DropOpenReopen(db.records);
    if db.parties == [] {
      db.records := savepoint;
      return Rejected(TooFewParties);
    }
    IssuePartyOtps(env, db, ForReopen, codes);
    return Done;
  }

  lemma OnlyRowOfOne(rows: set<nat>, a: nat, b: nat)
    requires |rows| == 1 && a in rows && b in rows
    ensures a == b
  {
    if a != b {
      assert |{a, b}| <= |rows| by {
        assert rows == {a, b} + (rows - {a, b});
      }
    }
  }

  /** The lookup both confirmations start with: a party by phone, then its one open record. */
  method FindOpenRecord(env: Env, db: Db, purpose: Purpose, phone: string) returns (record: Option<nat>, fault: Reason)
    ensures var found := PartyByPhone(env.text, db.parties, phone);
      var rows := if found.Some? then OpenRecords(db.records, found.value.pk, purpose) else {};
      if record.Some? then |rows| == 1 && record.value in rows
      else fault == if rows == {} then InvalidCode else MultipleRows
    ensures record.None? ==> var found := PartyByPhone(env.text, db.parties, phone);
      found.None? || |OpenRecords(db.records, found.value.pk, purpose)| != 1
  {
    fault := InvalidCode;
    var found := GetPartyByPhone(env.text, db.parties, phone);
    if found.None? {
      return None, InvalidCode;
    }
    var rows := OpenRecords(db.records, found.value.pk, purpose);
    if rows == {} {
      return None, InvalidCode;
    }
    if |rows| > 1 {
      return None, MultipleRows;
    }
    var r :| r in rows;
    record := Some(r);
  }

  lemma JudgeFound(env: Env, s: State, tries: map<nat, Counter>, purpose: Purpose, phone: string, code: string, r: nat)
    requires var found := PartyByPhone(env.text, s.parties, phone);
      && found.Some? && |OpenRecords(s.records, found.value.pk, purpose)| == 1
      && r in OpenRecords(s.records, found.value.pk, purpose)
    ensures Judge(env, s, tries, purpose, phone, code) ==
      if LiveCount(tries, r, s.now) >= OTP_MAX_ATTEMPTS then Locked(r)
      else if CodeFits(env, s, r, code) then Right(r) else Wrong(r)
  {
    var rows := OpenRecords(s.records, PartyByPhone(env.text, s.parties, phone).value.pk, purpose);
    forall q | q in rows ensures q == r {
      OnlyRowOfOne(rows, q, r);
    }
  }

  lemma GrantKeepsLinks(s: State, r: nat)
    requires r in s.records && Linked(s)
    ensures RecordsLinked(s.parties, GrantRecord(s.records, r, s.now))
  {
  }

  /** What confirm_by_phone does with a record whose code is right. */
  method GrantConsent(env: Env, db: Db, r: nat, ghost phone: string, ghost code: string) returns (outcome: Outcome)
    requires Linked(db.View())
    requires Judge(env, db.View(), db.consentTries, ForConsent, phone, code) == Right(r)
    modifies db`status, db`records, db`consentTries
    ensures Reply(db.View(), outcome) == ConfirmByPhone(env, old(db.View()), phone, code)
  {
    hide Judge, EveryoneConsented, RecordsLinked, GrantRecord;
    GrantKeepsLinks(db.View(), r);
    var savepoint := db.records;
    db.consentTries := db.consentTries - {r};
    db.records := GrantRecord(db.records, r, db.now);
    var all := AllConsented(db.parties, db.records);
    if all && db.revisions == [] {
      var next := NextState(db.status, AllConsentedMove);
      if next.None? {
        db.records := savepoint;
        return Rejected(Undone(r));
      }
      db.status := next.value;
    }
    return Done;
  }

  /** confirm_by_phone */
  method ConfirmConsentByPhone(env: Env, db: Db, phone: string, code: string) returns (outcome: Outcome)
    requires Linked(db.View())
    modifies db`status, db`records, db`consentTries
    ensures Reply(db.View(), outcome) == ConfirmByPhone(env, old(db.View()), phone, code)
  {
    hide Linked, EveryoneConsented;
    var record, fault := FindOpenRecord(env, db, ForConsent, phone);
    if record.None? {
      return Rejected(fault);
    }
    var r := record.value;
    JudgeFound(env, db.View(), db.consentTries, ForConsent, phone, code, r);
    var attempts := LiveCount(db.consentTries, r, db.now);
    if attempts >= OTP_MAX_ATTEMPTS {
      return Rejected(LockedOut(r));
    }
    if !CodeFits(env, db.View(), r, code) {
      db.consentTries := db.consentTries[r := Counter(attempts + 1, db.now + OTP_LOCKOUT_SECONDS)];
      return Rejected(BadCode(r));
    }
    outcome := GrantConsent(env, db, r, phone, code);
  }

  /** all_parties_confirmed_reopen: the parties are exactly those with a granted record. */
  method AllConfirmedReopen(parties: seq<Party>, records: map<nat, Record>) returns (all: bool)
    requires RecordsLinked(parties, records)
    ensures all <==> parties != [] && forall p <- parties :: HoldsReopenGrant(records, p.pk)
  {
    var partyIds := PartyPks(parties);
    var confirmed := set k | k in records && records[k].purpose == ForReopen && records[k].granted :: records[k].party;
    all := partyIds != {} && partyIds == confirmed;
    forall p | p in parties ensures p.pk in partyIds && (p.pk in confirmed <==> HoldsReopenGrant(records, p.pk)) {
    }
    assert confirmed <= partyIds;
    assert parties != [] ==> parties[0].pk in partyIds;
  }

  /** What confirm_reopen_by_phone does with a record whose code is right. */
  method GrantReopen(env: Env, db: Db, r: nat, ghost phone: string, ghost code: string) returns (outcome: Outcome)
    requires Linked(db.View())
    requires Judge(env, db.View(), db.reopenTries, ForReopen, phone, code) == Right(r)
    modifies db`status, db`sealedAt, db`sealHash, db`revisions, db`records, db`reopenTries
    ensures Reply(db.View(), outcome) == ConfirmReopenByPhone(env, old(db.View()), phone, code)
  {
    hide Judge, HoldsReopenGrant, RecordsLinked, GrantRecord;
    GrantKeepsLinks(db.View(), r);
    var savepoint := db.records;
    db.reopenTries := db.reopenTries - {r};
    db.records := GrantRecord(db.records, r, db.now);
    var all := AllConfirmedReopen(db.parties, db.records);
    if all {
      var completed := CompleteBilateralReopenOf(env, db);
      if completed.Rejected? {
        db.records := savepoint;
        return Rejected(Undone(r));
      }
    }
    return Done;
  }

  /** confirm_reopen_by_phone */
  method ConfirmReopen(env: Env, db: Db, phone: string, code: string) returns (outcome: Outcome)
    requires Linked(db.View())
    modifies db`status, db`sealedAt, db`sealHash, db`revisions, db`records, db`reopenTries
    ensures Reply(db.View(), outcome) == ConfirmReopenByPhone(env, old(db.View()), phone, code)
  {
    hide Linked, HoldsReopenGrant, CompleteBilateralReopen;
    var record, fault := FindOpenRecord(env, db, ForReopen, phone);
    if record.None? {
      return Rejected(fault);
    }
    var r := record.value;
    JudgeFound(env, db.View(), db.reopenTries, ForReopen, phone, code, r);
    var attempts := LiveCount(db.reopenTries, r, db.now);
    if attempts >= OTP_MAX_ATTEMPTS {
      return Rejected(LockedOut(r));
    }
    if !CodeFits(env, db.View(), r, code) {
      db.reopenTries := db.reopenTries[r := Counter(attempts + 1, db.now + OTP_LOCKOUT_SECONDS)];
      return Rejected(BadCode(r));
    }
    outcome := GrantReopen(env, db, r, phone, code);
  }
}
