/** The one-time codes of an agreement by the rows: what a round issues, and just when a code grants. */
module CodeTheorems {
  import opened Wrappers
  import opened Lifecycle
  import opened Rows
  import opened Phones
  import opened Policies
  import opened SealSteps
  import opened ConsentSteps
  import opened ValidityTheorems

  // ---- Rounds ----

  /** Row k is the i-th party's record of a new round: open, for that party's code, for ten minutes. */
  predicate IsIssued(env: Env, s: State, records: map<nat, Record>, purpose: Purpose, codes: seq<string>, i: nat)
    requires i < |s.parties|
  {
    && s.nextPk + i in records
    && var r := records[s.nextPk + i];
       && r.party == s.parties[i].pk && r.purpose == purpose && !r.granted && r.grantedAt == None
       && r.createdAt == s.now && r.expiresAt == s.now + 600
       && (i < |codes| ==> r.otpHash == env.otpHash(codes[i]))
  }

  /** A round for everyone: the kept rows, and one new row for each party. */
  ghost predicate IsRound(env: Env, s: State, s': State, purpose: Purpose, codes: seq<string>, kept: set<nat>) {
    && (forall i :: 0 <= i < |s.parties| ==> IsIssued(env, s, s'.records, purpose, codes, i))
    && s'.records.Keys == kept + NewPks(s.nextPk, |s.parties|)
    && (forall k <- kept :: k in s.records && s'.records[k] == s.records[k])
    && s'.nextPk == s.nextPk + |s.parties|
  }

  lemma IssuesRound(env: Env, s: State, purpose: Purpose, codes: seq<string>)
    requires forall k :: k in s.records ==> k < s.nextPk
    ensures IsRound(env, s, IssueCodes(env, s, purpose, codes), purpose, codes, s.records.Keys)
  {
    var records := IssueCodes(env, s, purpose, codes).records;
    forall i | 0 <= i < |s.parties| ensures IsIssued(env, s, records, purpose, codes, i) {
      assert s.nextPk + i in NewPks(s.nextPk, |s.parties|);
    }
  }

  function WithoutConsent(records: map<nat, Record>): set<nat> {
    set k | k in records && records[k].purpose != ForConsent
  }

  function WithoutOpenReopen(records: map<nat, Record>): set<nat> {
    set k | k in records && (records[k].purpose == ForReopen ==> records[k].granted)
  }

  /** Consent codes are asked for before a seal, by two parties or more, until everyone has consented; all
      earlier consent records go, and everyone gets a new one. */
  lemma ConsentRoundExactly(env: Env, s: State, codes: seq<string>)
    requires forall k :: k in s.records ==> k < s.nextPk
    ensures RequestOtp(env, s, codes).outcome == Done <==>
      && s.status in {Draft, PendingConsent, Active} && |s.parties| >= 2
      && (s.status == PendingConsent ==> !EveryoneConsents(s))
    ensures var reply := RequestOtp(env, s, codes);
      reply.outcome == Done ==>
        && reply.state.status == PendingConsent
        && IsRound(env, s, reply.state, ForConsent, codes, WithoutConsent(s.records))
  {
    hide IssueCodes, IsRound, EveryoneConsents, AllPartiesConsented;
    EveryoneIsAll(s);
    var kept := s.(status := PendingConsent, records := DropConsent(s.records));
    IssuesRound(env, kept, ForConsent, codes);
    SameRound(env, kept, s, IssueCodes(env, kept, ForConsent, codes), ForConsent, codes);
    assert kept.records.Keys == WithoutConsent(s.records);
  }

  lemma SameRound(env: Env, kept: State, s: State, s': State, purpose: Purpose, codes: seq<string>)
    requires kept.parties == s.parties && kept.nextPk == s.nextPk && kept.now == s.now
    requires forall k :: k in kept.records ==> k in s.records && kept.records[k] == s.records[k]
    requires IsRound(env, kept, s', purpose, codes, kept.records.Keys)
    ensures IsRound(env, s, s', purpose, codes, kept.records.Keys)
  {
    forall i | 0 <= i < |s.parties| ensures IsIssued(env, s, s'.records, purpose, codes, i) {
      assert IsIssued(env, kept, s'.records, purpose, codes, i);
    }
  }

  /** Codes to reopen are asked for while a reopen is requested; only the records without a grant go. */
  lemma ReopenRoundExactly(env: Env, s: State, codes: seq<string>)
    requires forall k :: k in s.records ==> k < s.nextPk
    ensures RequestReopenOtp(env, s, codes).outcome == Done <==> s.status == ReopenRequested && |s.parties| > 0
    ensures var reply := RequestReopenOtp(env, s, codes);
      reply.outcome == Done ==> IsRound(env, s, reply.state, ForReopen, codes, WithoutOpenReopen(s.records))
  {
    hide IssueCodes, IsRound;
    var kept := s.(records := DropOpenReopen(s.records));
    IssuesRound(env, kept, ForReopen, codes);
    SameRound(env, kept, s, IssueCodes(env, kept, ForReopen, codes), ForReopen, codes);
    assert kept.records.Keys == WithoutOpenReopen(s.records);
  }

  /** The older call renews the codes of a pending agreement and leaves its status. */
  lemma ReissueExactly(env: Env, s: State, codes: seq<string>)
    requires forall k :: k in s.records ==> k < s.nextPk
    ensures ReissueConsent(env, s, codes).outcome == Done <==>
      s.status == PendingConsent && |s.parties| > 0 && !EveryoneConsents(s)
    ensures var reply := ReissueConsent(env, s, codes);
      reply.outcome == Done ==> IsRound(env, s, reply.state, ForConsent, codes, WithoutConsent(s.records))
  {
    hide IssueCodes, IsRound, EveryoneConsents, AllPartiesConsented;
    EveryoneIsAll(s);
    var kept := s.(records := DropConsent(s.records));
    IssuesRound(env, kept, ForConsent, codes);
    SameRound(env, kept, s, IssueCodes(env, kept, ForConsent, codes), ForConsent, codes);
    assert kept.records.Keys == WithoutConsent(s.records);
  }

  // ---- Judging a code ----

  predicate IsOpenOf(records: map<nat, Record>, k: nat, party: nat, purpose: Purpose) {
    k in records && records[k].party == party && records[k].purpose == purpose && !records[k].granted
  }

  /** p alone has the phone, and r alone is its open record of the purpose. */
  ghost predicate MeansRecord(env: Env, s: State, purpose: Purpose, phone: string, p: Party, r: nat) {
    && p in s.parties && CompareKey(env.text, p.phone) == CompareKey(env.text, phone)
    && (forall q <- s.parties :: CompareKey(env.text, q.phone) == CompareKey(env.text, phone) ==> q == p)
    && IsOpenOf(s.records, r, p.pk, purpose)
    && (forall k :: k in s.records && IsOpenOf(s.records, k, p.pk, purpose) ==> k == r)
  }

  /** The wrong tries on the record that still count: a quarter of an hour without one forgets them. */
  function Misses(tries: map<nat, Counter>, r: nat, now: int): nat {
    if r in tries && now < tries[r].deadline then tries[r].value else 0
  }

  predicate IsRight(env: Env, s: State, r: nat, code: string)
    requires r in s.records
  {
    s.now <= s.records[r].expiresAt && env.otpHash(code) == s.records[r].otpHash
  }

  lemma JudgesExactly(env: Env, s: State, tries: map<nat, Counter>, purpose: Purpose, phone: string, code: string,
      p: Party, r: nat)
    requires MeansRecord(env, s, purpose, phone, p, r)
    ensures r in s.records
    ensures Judge(env, s, tries, purpose, phone, code) ==
      if Misses(tries, r, s.now) >= 3 then Locked(r) else if IsRight(env, s, r, code) then Right(r) else Wrong(r)
  {
    hide CompareKey;
    assert PartyByPhone(env.text, s.parties, phone) == Some(p);
    assert OpenRecords(s.records, p.pk, purpose) == {r};
  }

  /** A phone of no party, or of one without an open record, is refused and counts nowhere. */
  lemma JudgesNothing(env: Env, s: State, tries: map<nat, Counter>, purpose: Purpose, phone: string, code: string)
    requires forall p, k :: p in s.parties && k in s.records && IsOpenOf(s.records, k, p.pk, purpose) ==>
      CompareKey(env.text, p.phone) != CompareKey(env.text, phone)
    ensures Judge(env, s, tries, purpose, phone, code) == NoRow
  {
    hide CompareKey;
    var found := PartyByPhone(env.text, s.parties, phone);
    if found.Some? {
      assert OpenRecords(s.records, found.value.pk, purpose) == {};
    }
  }

  function Granted(s: State, r: nat): State
    requires r in s.records
  {
    s.(records := s.records[r := s.records[r].(granted := true, grantedAt := Some(s.now))])
  }

  function Missed(tries: map<nat, Counter>, r: nat, now: int): map<nat, Counter> {
    tries[r := Counter(Misses(tries, r, now) + 1, now + 900)]
  }

  lemma CountsAlike(tries: map<nat, Counter>, r: nat, now: int)
    ensures LiveCount(tries, r, now) == Misses(tries, r, now) && CountMiss(tries, r, now) == Missed(tries, r, now)
  {
  }

  /** A consent code: refused while three misses count, counted as a miss unless it is the record's own and in
      time, and else granted; with everyone's consent the pending agreement becomes active, but not after a
      reopen. */
  lemma ConsentCodeExactly(env: Env, s: State, phone: string, code: string, p: Party, r: nat)
    requires MeansRecord(env, s, ForConsent, phone, p, r)
    ensures var reply, all := ConfirmByPhone(env, s, phone, code), EveryoneConsents(Granted(s, r)) && s.revisions == [];
      reply ==
        if Misses(s.consentTries, r, s.now) >= 3 then Reply(s, Rejected(LockedOut(r)))
        else if !IsRight(env, s, r, code)
        then Reply(s.(consentTries := Missed(s.consentTries, r, s.now)), Rejected(BadCode(r)))
        else if all && s.status != PendingConsent
        then Reply(s.(consentTries := s.consentTries - {r}), Rejected(Undone(r)))
        else Reply(
          Granted(s, r).(consentTries := s.consentTries - {r}, status := if all then Active else s.status), Done)
  {
    hide Judge, MeansRecord, IsRight, EveryoneConsents, EveryoneConsented, LiveCount, CountMiss, Misses, Missed;
    JudgesExactly(env, s, s.consentTries, ForConsent, phone, code, p, r);
    CountsAlike(s.consentTries, r, s.now);
    EveryoneIsAll(Granted(s, r));
  }

  ghost predicate EveryoneGrantsReopen(s: State) {
    |s.parties| > 0 && forall i :: 0 <= i < |s.parties| ==> GrantsReopen(s.records, s.parties[i].pk)
  }

  ghost predicate GrantsReopen(records: map<nat, Record>, party: nat) {
    exists k :: k in records && records[k].party == party && records[k].purpose == ForReopen && records[k].granted
  }

  lemma GrantsIsHolds(s: State)
    ensures EveryoneGrantsReopen(s) <==> AllPartiesConfirmedReopen(s)
  {
    forall i | 0 <= i < |s.parties|
      ensures s.parties[i] in s.parties
      ensures GrantsReopen(s.records, s.parties[i].pk) <==> HoldsReopenGrant(s.records, s.parties[i].pk)
    {
    }
    hide GrantsReopen, HoldsReopenGrant;
    if EveryoneGrantsReopen(s) {
      forall p | p in s.parties ensures HoldsReopenGrant(s.records, p.pk) {
        var i :| 0 <= i < |s.parties| && s.parties[i] == p;
      }
    }
  }

  /** A reopen code likewise; the last grant reopens the agreement and keeps the seal in a revision, or is
      undone where no reopen is requested. */
  lemma ReopenCodeExactly(env: Env, s: State, phone: string, code: string, p: Party, r: nat)
    requires MeansRecord(env, s, ForReopen, phone, p, r)
    requires s.status == ReopenRequested ==> s.sealedAt.Some?
    ensures var reply, all := ConfirmReopenByPhone(env, s, phone, code), EveryoneGrantsReopen(Granted(s, r));
      reply ==
        if Misses(s.reopenTries, r, s.now) >= 3 then Reply(s, Rejected(LockedOut(r)))
        else if !IsRight(env, s, r, code)
        then Reply(s.(reopenTries := Missed(s.reopenTries, r, s.now)), Rejected(BadCode(r)))
        else if !all then Reply(Granted(s, r).(reopenTries := s.reopenTries - {r}), Done)
        else if s.status != ReopenRequested
        then Reply(s.(reopenTries := s.reopenTries - {r}), Rejected(Undone(r)))
        else Reply(
          Granted(s, r).(
            reopenTries := s.reopenTries - {r}, status := Active, sealedAt := None, sealHash := "",
            revisions := s.revisions + [
              Revision(|s.revisions| + 1, s.sealHash, s.sealedAt.value, SnapshotNow(env, s))]),
          Done)
  {
    hide Judge, MeansRecord, IsRight, EveryoneGrantsReopen, HoldsReopenGrant, PayloadOf, LiveCount, CountMiss;
    hide Misses, Missed;
    JudgesExactly(env, s, s.reopenTries, ForReopen, phone, code, p, r);
    CountsAlike(s.reopenTries, r, s.now);
    GrantsIsHolds(Granted(s, r));
  }

  // ---- The older consent paths ----

  lemma OthersGranted(s: State, r: nat)
    requires r in s.records
    ensures var granted := GrantRecord(s.records, r, s.now);
      (forall k :: k in s.records && k != r ==> s.records[k].granted) <==>
        !exists k :: k in granted && !granted[k].granted
  {
    var granted := GrantRecord(s.records, r, s.now);
    if k :| k in s.records && k != r && !s.records[k].granted {
      assert k in granted && granted[k] == s.records[k];
    }
  }

  /** By record key, the last record granted at all activates, whatever its purpose. */
  lemma KeyCodeExactly(env: Env, s: State, r: nat, code: string)
    requires r in s.records
    ensures var reply := VerifyOtp(env, s, r, code);
      var all := (forall k :: k in s.records && k != r ==> s.records[k].granted) && s.revisions == [];
      reply ==
        if Misses(s.consentTries, r, s.now) >= 3 then Reply(s, Rejected(LockedOut(r)))
        else if s.records[r].granted || !IsRight(env, s, r, code)
        then Reply(s.(consentTries := Missed(s.consentTries, r, s.now)), Rejected(BadCode(r)))
        else if all && s.status != PendingConsent
        then Reply(s.(consentTries := s.consentTries - {r}), Rejected(Undone(r)))
        else Reply(
          Granted(s, r).(consentTries := s.consentTries - {r}, status := if all then Active else s.status), Done)
  {
    OthersGranted(s, r);
    hide IsRight;
  }

  /** Synchronising activates a pending agreement everyone consented to, and raises outside PENDING_CONSENT and
      ACTIVE. */
  lemma SyncExactly(s: State)
    ensures SyncConsent(s) ==
      if !EveryoneConsents(s) || s.status == Active then Reply(s, Done)
      else if s.status == PendingConsent then Reply(s.(status := Active), Done)
      else Reply(s, Rejected(IllegalTransition))
  {
    EveryoneIsAll(s);
    hide EveryoneConsents, AllPartiesConsented;
  }
}
