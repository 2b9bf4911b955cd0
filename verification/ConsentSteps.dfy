/** consent/services.py as state changes: rounds of one-time codes, their confirmation by phone and
    the attempt counters in the cache. */
module ConsentSteps {
  import opened Wrappers
  import opened Text
  import opened Lifecycle
  import opened Rows
  import opened Phones
  import opened Policies
  import opened SealSteps

  const OTP_MAX_ATTEMPTS := 3
  const OTP_LOCKOUT_SECONDS := 900
  const OTP_LIFE_SECONDS := 600

  // ---- Issuing codes ----

  function CodeAt(codes: seq<string>, i: int): string {
    if 0 <= i < |codes| then codes[i] else ""
  }

  function NewPks(base: nat, n: nat): (r: set<nat>)
    ensures forall pk :: pk in r <==> base <= pk < base + n
  {
    if n == 0 then {} else NewPks(base, n - 1) + {base + n - 1}
  }

  /** The record made for the i-th party of a round. */
  function RoundRecord(env: Env, s: State, purpose: Purpose, codes: seq<string>, i: int): Record
    requires 0 <= i < |s.parties|
  {
    Record(s.parties[i].pk, purpose, env.otpHash(CodeAt(codes, i)), false, None, s.now, s.now + OTP_LIFE_SECONDS)
  }

  /** _issue_party_otps: one record per party, keys from the counter upwards. */
  ghost function IssueCodes(env: Env, s: State, purpose: Purpose, codes: seq<string>): (r: State)
    ensures r == s.(records := r.records, nextPk := s.nextPk + |s.parties|)
  {
    var issued := map pk | pk in NewPks(s.nextPk, |s.parties|) :: RoundRecord(env, s, purpose, codes, pk - s.nextPk);
    s.(records := s.records + issued, nextPk := s.nextPk + |s.parties|)
  }

  function DropConsent(records: map<nat, Record>): map<nat, Record> {
    map k | k in records && records[k].purpose != ForConsent :: records[k]
  }

  function DropOpenReopen(records: map<nat, Record>): map<nat, Record> {
    map k | k in records && (records[k].purpose != ForReopen || records[k].granted) :: records[k]
  }

  /** request_otp */
  ghost function RequestOtp(env: Env, s: State, codes: seq<string>): (reply: Reply)
    ensures reply.state == s.(
      status := reply.state.status, records := reply.state.records, nextPk := reply.state.nextPk)
    ensures reply.outcome.Rejected? ==> reply.state == s
  {
    if !CanRequestConsent(s) then Reject(s, WrongStatus)
    else if s.status == PendingConsent && AllPartiesConsented(s) then Reject(s, AlreadyConsented)
    else
      Reply(IssueCodes(env, s.(status := PendingConsent, records := DropConsent(s.records)), ForConsent, codes), Done)
  }

  /** request_reopen_otp */
  ghost function RequestReopenOtp(env: Env, s: State, codes: seq<string>): (reply: Reply)
    ensures reply.state == s.(records := reply.state.records, nextPk := reply.state.nextPk)
    ensures reply.outcome.Rejected? ==> reply.state == s
  {
    if s.status != ReopenRequested then Reject(s, WrongStatus)
    else if s.parties == [] then Reject(s, TooFewParties)
    else Reply(IssueCodes(env, s.(records := DropOpenReopen(s.records)), ForReopen, codes), Done)
  }

  // ---- Confirming codes ----

  /** _get_party_by_phone: the first party, in storage order, with the key. */
  function PartyByPhone(t: Alphabet, parties: seq<Party>, phone: string): (r: Option<Party>)
    ensures r.Some? ==> r.value in parties && CompareKey(t, r.value.phone) == CompareKey(t, phone)
    ensures r.None? ==> forall p <- parties :: CompareKey(t, p.phone) != CompareKey(t, phone)
  {
    if parties == [] then None
    else if CompareKey(t, parties[0].phone) == CompareKey(t, phone) then Some(parties[0])
    else PartyByPhone(t, parties[1..], phone)
  }

  /** The rows `.get(party=..., purpose=..., granted=False)` matches. */
  function OpenRecords(records: map<nat, Record>, party: nat, purpose: Purpose): set<nat> {
    set k | k in records && records[k].party == party && records[k].purpose == purpose && !records[k].granted
  }

  /** cache.get(key, 0) */
  function LiveCount(tries: map<nat, Counter>, r: nat, now: int): nat {
    if r in tries && now < tries[r].deadline then tries[r].value else 0
  }

  function CountMiss(tries: map<nat, Counter>, r: nat, now: int): map<nat, Counter> {
    tries[r := Counter(LiveCount(tries, r, now) + 1, now + OTP_LOCKOUT_SECONDS)]
  }

  predicate CodeFits(env: Env, s: State, r: nat, code: string)
    requires r in s.records
  {
    s.records[r].expiresAt >= s.now && env.otpHash(code) == s.records[r].otpHash
  }

  datatype Verdict = NoRow | ManyRows | Locked(r: nat) | Wrong(r: nat) | Right(r: nat)

  /** The part confirm_by_phone and confirm_reopen_by_phone share: find the row, check the counter,
      check the code. */
  ghost function Judge(env: Env, s: State, tries: map<nat, Counter>, purpose: Purpose, phone: string, code: string)
    : (v: Verdict)
    ensures v.Right? ==> v.r in s.records
  {
    var found := PartyByPhone(env.text, s.parties, phone);
    if found.None? then NoRow else
    var rows := OpenRecords(s.records, found.value.pk, purpose);
    if rows == {} then NoRow
    else if |rows| > 1 then ManyRows
    else
      var r :| r in rows;
      if LiveCount(tries, r, s.now) >= OTP_MAX_ATTEMPTS then Locked(r)
      else if CodeFits(env, s, r, code) then Right(r)
      else Wrong(r)
  }

  function GrantRecord(records: map<nat, Record>, r: nat, now: int): map<nat, Record>
    requires r in records
  {
    records[r := records[r].(granted := true, grantedAt := Some(now))]
  }

  /** confirm_by_phone; a raise undoes the rows but not the cache. */
  ghost function ConfirmByPhone(env: Env, s: State, phone: string, code: string): (reply: Reply)
    ensures reply.state == s.(
      status := reply.state.status, records := reply.state.records, consentTries := reply.state.consentTries)
    ensures reply.outcome.Rejected? ==> reply.state == s.(consentTries := reply.state.consentTries)
    ensures reply.state.status == s.status
      || (s.status == PendingConsent && reply.state.status == Active && s.revisions == [])
    ensures var v := Judge(env, s, s.consentTries, ForConsent, phone, code);
      reply.state.records ==
        if v.Right? && reply.outcome == Done then GrantRecord(s.records, v.r, s.now) else s.records
  {
    match Judge(env, s, s.consentTries, ForConsent, phone, code)
    case NoRow => Reject(s, InvalidCode)
    case ManyRows => Reject(s, MultipleRows)
    case Locked(r) => Reject(s, LockedOut(r))
    case Wrong(r) => Reject(s.(consentTries := CountMiss(s.consentTries, r, s.now)), BadCode(r))
    case Right(r) =>
      var cleared := s.(consentTries := s.consentTries - {r});
      var granted := cleared.(records := GrantRecord(s.records, r, s.now));
      if !AllPartiesConsented(granted) || s.revisions != [] then Reply(granted, Done) else
      var next := NextState(s.status, AllConsentedMove);
      if next.None? then Reject(cleared, Undone(r)) else Reply(granted.(status := next.value), Done)
  }

  /** confirm_reopen_by_phone; the last confirmation completes the reopen. */
  ghost function ConfirmReopenByPhone(env: Env, s: State, phone: string, code: string): (reply: Reply)
    ensures reply.state == s.(
      status := reply.state.status, sealedAt := reply.state.sealedAt, sealHash := reply.state.sealHash,
      revisions := reply.state.revisions, records := reply.state.records, reopenTries := reply.state.reopenTries)
    ensures reply.outcome.Rejected? ==> reply.state == s.(reopenTries := reply.state.reopenTries)
    ensures reply.state.status == s.status
      || (s.status == ReopenRequested && reply.state.status == Active)
    ensures var v := Judge(env, s, s.reopenTries, ForReopen, phone, code);
      reply.state.records ==
        if v.Right? && reply.outcome == Done then GrantRecord(s.records, v.r, s.now) else s.records
  {
    match Judge(env, s, s.reopenTries, ForReopen, phone, code)
    case NoRow => Reject(s, InvalidCode)
    case ManyRows => Reject(s, MultipleRows)
    case Locked(r) => Reject(s, LockedOut(r))
    case Wrong(r) => Reject(s.(reopenTries := CountMiss(s.reopenTries, r, s.now)), BadCode(r))
    case Right(r) =>
      var cleared := s.(reopenTries := s.reopenTries - {r});
      var granted := cleared.(records := GrantRecord(s.records, r, s.now));
      if !AllPartiesConfirmedReopen(granted) then Reply(granted, Done) else
      var done := CompleteBilateralReopen(env, granted);
      if done.outcome.Rejected? then Reject(cleared, Undone(r)) else done
  }

  // ---- The older consent paths ----

  /** ConsentService.request_consent */
  ghost function ReissueConsent(env: Env, s: State, codes: seq<string>): (reply: Reply)
    ensures reply.state == s.(records := reply.state.records, nextPk := reply.state.nextPk)
    ensures reply.outcome.Rejected? ==> reply.state == s
  {
    if s.status != PendingConsent then Reject(s, WrongStatus)
    else if AllPartiesConsented(s) then Reject(s, AlreadyConsented)
    else if s.parties == [] then Reject(s, TooFewParties)
    else Reply(IssueCodes(env, s.(records := DropConsent(s.records)), ForConsent, codes), Done)
  }

  /** ConsentService.verify_otp, by record key. */
  ghost function VerifyOtp(env: Env, s: State, r: nat, code: string): (reply: Reply)
    ensures reply.state == s.(
      status := reply.state.status, records := reply.state.records, consentTries := reply.state.consentTries)
    ensures reply.outcome.Rejected? ==> reply.state == s.(consentTries := reply.state.consentTries)
    ensures reply.state.status == s.status
      || (s.status == PendingConsent && reply.state.status == Active && s.revisions == [])
  {
    if LiveCount(s.consentTries, r, s.now) >= OTP_MAX_ATTEMPTS then Reject(s, LockedOut(r))
    else if r !in s.records then Reject(s, InvalidCode)
    else if s.records[r].granted || !CodeFits(env, s, r, code) then
      Reject(s.(consentTries := CountMiss(s.consentTries, r, s.now)), BadCode(r))
    else
      var cleared := s.(consentTries := s.consentTries - {r});
      var granted := cleared.(records := GrantRecord(s.records, r, s.now));
      if (exists k :: k in granted.records && !granted.records[k].granted) || s.revisions != []
      then Reply(granted, Done)
      else
        var next := NextState(s.status, AllConsentedMove);
        if next.None? then Reject(cleared, Undone(r)) else Reply(granted.(status := next.value), Done)
  }

  /** consent/tasks.py sync_consent */
  ghost function SyncConsent(s: State): (reply: Reply)
    ensures reply.state == s.(status := reply.state.status)
    ensures reply.outcome.Rejected? ==> reply.state == s
  {
    if !AllPartiesConsented(s) || s.status == Active then Reply(s, Done) else
    var next := NextState(s.status, AllConsentedMove);
    if next.None? then Reject(s, IllegalTransition) else Reply(s.(status := next.value), Done)
  }
}
