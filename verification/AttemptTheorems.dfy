/** Guessing codes: how many wrong tries a record takes before it can never be granted. */
module AttemptTheorems {
  import opened Wrappers
  import opened Lifecycle
  import opened Rows
  import opened Policies
  import opened PartySteps
  import opened EvidenceSteps
  import opened IdentitySteps
  import opened SealSteps
  import opened ConsentSteps
  import opened Protocol
  import opened Integrity
  import opened StandingTheorems
  import opened ReopenTheorems
  import opened ConsentTheorems

  function Tries(s: State, purpose: Purpose): map<nat, Counter> {
    if purpose == ForConsent then s.consentTries else s.reopenTries
  }

  /** The call confirms codes of this purpose. */
  predicate ConfirmsFor(a: Action, purpose: Purpose) {
    if purpose == ForConsent then a.DoConfirmByPhone? else a.DoConfirmReopenByPhone?
  }

  ghost predicate IsOpenFor(s: State, purpose: Purpose, r: nat) {
    IsOpen(s.records, r) && s.records[r].purpose == purpose
  }

  // ---- One step's effect on the counter of a record ----

  datatype Event = Miss | Undo | Other

  function EventIn(o: Outcome, r: nat): Event {
    if o == Rejected(BadCode(r)) then Miss else if o == Rejected(Undone(r)) then Undo else Other
  }

  ghost function EventOf(env: Env, s: State, a: Action, purpose: Purpose, r: nat): Event {
    if ConfirmsFor(a, purpose) then EventIn(Apply(env, s, a).outcome, r) else Other
  }

  function Entry(tries: map<nat, Counter>, r: nat): Option<Counter> {
    if r in tries then Some(tries[r]) else None
  }

  /** A record open after a step is new, or was open before; its counter went up by one on a miss,
      was cleared by an undone confirmation, and else stayed as it was. */
  ghost predicate CounterMoves(s: State, s': State, purpose: Purpose, r: nat, e: Event)
    requires r in s'.records
  {
    && (r in s.records ==> s'.records[r] == s.records[r])
    && (r !in s.records ==> s.nextPk <= r)
    && Entry(Tries(s', purpose), r) ==
       match e
       case Miss => Some(Counter(LiveCount(Tries(s, purpose), r, s.now) + 1, s.now + OTP_LOCKOUT_SECONDS))
       case Undo => None
       case Other => Entry(Tries(s, purpose), r)
  }

  lemma ConfirmMoves(env: Env, s: State, phone: string, code: string, purpose: Purpose, r: nat)
    requires var s' := ConfirmByPhone(env, s, phone, code).state; IsOpenFor(s', purpose, r)
    ensures var reply := ConfirmByPhone(env, s, phone, code);
      CounterMoves(s, reply.state, purpose, r, if purpose == ForConsent then EventIn(reply.outcome, r) else Other)
  {
    hide Judge, AllPartiesConsented;
  }

  lemma ReopenConfirmMoves(env: Env, s: State, phone: string, code: string, purpose: Purpose, r: nat)
    requires var s' := ConfirmReopenByPhone(env, s, phone, code).state; IsOpenFor(s', purpose, r)
    ensures var reply := ConfirmReopenByPhone(env, s, phone, code);
      CounterMoves(s, reply.state, purpose, r, if purpose == ForReopen then EventIn(reply.outcome, r) else Other)
  {
    hide Judge, AllPartiesConfirmedReopen;
  }

  lemma IssueMoves(env: Env, s: State, purpose: Purpose, codes: seq<string>, r: nat)
    requires r in IssueCodes(env, s, purpose, codes).records && forall k :: k in s.records ==> k < s.nextPk
    ensures r !in s.records ==> s.nextPk <= r
    ensures r in s.records ==> IssueCodes(env, s, purpose, codes).records[r] == s.records[r]
  {
  }

  lemma RequestMoves(env: Env, s: State, codes: seq<string>, purpose: Purpose, r: nat)
    requires RecordsKept(s) && r in RequestOtp(env, s, codes).state.records
    ensures CounterMoves(s, RequestOtp(env, s, codes).state, purpose, r, Other)
  {
    hide IssueCodes, AllPartiesConsented, RecordKept;
    RecordsKeyed(s);
    if RequestOtp(env, s, codes).outcome == Done {
      IssueMoves(env, s.(status := PendingConsent, records := DropConsent(s.records)), ForConsent, codes, r);
    }
  }

  lemma ReopenRequestMoves(env: Env, s: State, codes: seq<string>, purpose: Purpose, r: nat)
    requires RecordsKept(s) && r in RequestReopenOtp(env, s, codes).state.records
    ensures CounterMoves(s, RequestReopenOtp(env, s, codes).state, purpose, r, Other)
  {
    hide IssueCodes, RecordKept;
    RecordsKeyed(s);
    if RequestReopenOtp(env, s, codes).outcome == Done {
      IssueMoves(env, s.(records := DropOpenReopen(s.records)), ForReopen, codes, r);
    }
  }

  lemma QuietMoves(env: Env, s: State, a: Action, purpose: Purpose, r: nat)
    requires !EditsRecords(a) && r in s.records
    ensures r in Apply(env, s, a).state.records
    ensures CounterMoves(s, Apply(env, s, a).state, purpose, r, EventOf(env, s, a, purpose, r))
  {
    hide Apply;
    Frame(env, s, a);
  }

  lemma SettingMoves(env: Env, s: State, keys: set<string>, inputs: seq<PartyInput>, purpose: Purpose, r: nat)
    requires r in SetParties(env, s, keys, inputs).state.records
    ensures CounterMoves(s, SetParties(env, s, keys, inputs).state, purpose, r, Other)
  {
    hide SetFault, NewParties, NewChecks;
  }

  lemma TriesStep(env: Env, s: State, a: Action, purpose: Purpose, r: nat)
    requires RecordsKept(s) && PhoneFlow(a) && IsOpenFor(Apply(env, s, a).state, purpose, r)
    ensures CounterMoves(s, Apply(env, s, a).state, purpose, r, EventOf(env, s, a, purpose, r))
  {
    hide RequestOtp, RequestReopenOtp, ConfirmByPhone, ConfirmReopenByPhone, SetParties, RecordsKept, CounterMoves;
    if !EditsRecords(a) {
      assert r in s.records by {
        hide Apply, EditsRecords;
        Frame(env, s, a);
      }
      QuietMoves(env, s, a, purpose, r);
    } else {
      match a
      case DoConfirmByPhone(phone, code) => ConfirmMoves(env, s, phone, code, purpose, r);
      case DoConfirmReopenByPhone(phone, code) => ReopenConfirmMoves(env, s, phone, code, purpose, r);
      case DoRequestOtp(codes) => RequestMoves(env, s, codes, purpose, r);
      case DoRequestReopenOtp(codes) => ReopenRequestMoves(env, s, codes, purpose, r);
      case DoSetParties(keys, inputs) => SettingMoves(env, s, keys, inputs, purpose, r);
    }
  }

  /** What a verdict says about its record. */
  lemma JudgedIsOpen(env: Env, s: State, purpose: Purpose, phone: string, code: string, r: nat)
    requires Judge(env, s, Tries(s, purpose), purpose, phone, code) in {Wrong(r), Right(r)}
    ensures IsOpenFor(s, purpose, r) && LiveCount(Tries(s, purpose), r, s.now) < OTP_MAX_ATTEMPTS
    ensures Judge(env, s, Tries(s, purpose), purpose, phone, code) == Right(r) <==> CodeFits(env, s, r, code)
  {
  }

  lemma EventIsOpen(env: Env, s: State, a: Action, purpose: Purpose, r: nat)
    requires EventOf(env, s, a, purpose, r) != Other
    ensures IsOpenFor(s, purpose, r) && LiveCount(Tries(s, purpose), r, s.now) < OTP_MAX_ATTEMPTS
    ensures EventOf(env, s, a, purpose, r) == Undo ==> s.records[r].expiresAt >= s.now
  {
    hide Judge, AllPartiesConsented, AllPartiesConfirmedReopen;
    JudgedIsOpen(env, s, purpose, a.phone, a.code, r);
  }

  /** A record is granted only through a right code, on time and with tries left. */
  lemma GrantNeedsTries(env: Env, s: State, a: Action, purpose: Purpose, r: nat)
    requires RecordsKept(s) && PhoneFlow(a) && IsOpenFor(s, purpose, r)
    requires var s' := Apply(env, s, a).state; r in s'.records && s'.records[r].granted
    ensures LiveCount(Tries(s, purpose), r, s.now) < OTP_MAX_ATTEMPTS && s.records[r].expiresAt >= s.now
  {
    hide Judge, RequestOtp, RequestReopenOtp, SetFault, RecordsKept, IsConsent, PatchAll, Seal, Reopen;
    hide VerifyIdentity, CreateLivenessSession, ProcessLivenessResult;
    hide ResolveManualReview, CleanupReference, ConfirmUpload;
    match a
    case DoConfirmByPhone(phone, code) =>
      JudgedIsOpen(env, s, ForConsent, phone, code, r);
    case DoConfirmReopenByPhone(phone, code) =>
      JudgedIsOpen(env, s, ForReopen, phone, code, r);
    case DoRequestOtp(codes) => RequestMoves(env, s, codes, purpose, r);
    case DoRequestReopenOtp(codes) => ReopenRequestMoves(env, s, codes, purpose, r);
    case DoSetParties(_, _) =>
    case _ => Frame(env, s, a);
  }

  /** A deleted record never comes back, and a new one starts ungranted. */
  lemma RecordsAppearOpen(env: Env, s: State, a: Action, r: nat)
    requires RecordsKept(s) && PhoneFlow(a) && r !in s.records
    requires r in Apply(env, s, a).state.records
    ensures s.nextPk <= r && !Apply(env, s, a).state.records[r].granted
  {
    hide RequestOtp, RequestReopenOtp, ConfirmByPhone, ConfirmReopenByPhone, Judge, RecordsKept, SetFault;
    match a
    case DoRequestOtp(codes) => RequestAddsOpen(env, s, codes, r);
    case DoRequestReopenOtp(codes) => ReopenRequestAddsOpen(env, s, codes, r);
    case DoSetParties(_, _) =>
    case _ => Frame(env, s, a);
  }

  lemma RequestAddsOpen(env: Env, s: State, codes: seq<string>, r: nat)
    requires RecordsKept(s) && r !in s.records && r in RequestOtp(env, s, codes).state.records
    ensures s.nextPk <= r && !RequestOtp(env, s, codes).state.records[r].granted
  {
    hide AllPartiesConsented;
  }

  lemma ReopenRequestAddsOpen(env: Env, s: State, codes: seq<string>, r: nat)
    requires RecordsKept(s) && r !in s.records && r in RequestReopenOtp(env, s, codes).state.records
    ensures s.nextPk <= r && !RequestReopenOtp(env, s, codes).state.records[r].granted
  {
  }

  // ---- Counting wrong tries over a run ----

  ghost function EventAt(env: Env, tr: Trace, purpose: Purpose, r: nat, i: nat): Event
    requires |tr.states| == |tr.actions| + 1 && i < |tr.actions|
  {
    EventOf(env, tr.states[i], tr.actions[i], purpose, r)
  }

  /** Wrong tries on record r in the first n steps, since the last undone confirmation of it. */
  ghost function Misses(env: Env, tr: Trace, purpose: Purpose, r: nat, n: nat): nat
    requires |tr.states| == |tr.actions| + 1 && n <= |tr.actions|
  {
    if n == 0 then 0 else
    match EventAt(env, tr, purpose, r, n - 1)
    case Miss => Misses(env, tr, purpose, r, n - 1) + 1
    case Undo => 0
    case Other => Misses(env, tr, purpose, r, n - 1)
  }

  /** While a record can still be granted, the cache holds its wrong tries for longer than its life. */
  ghost predicate Counted(s: State, purpose: Purpose, r: nat, misses: nat) {
    && (s.nextPk <= r ==> misses == 0)
    && (IsOpenFor(s, purpose, r) && s.now <= s.records[r].expiresAt ==>
          var e := Entry(Tries(s, purpose), r);
          if misses == 0 then e.None?
          else e.Some? && e.value.value == misses && s.records[r].createdAt + OTP_LOCKOUT_SECONDS <= e.value.deadline)
  }

  lemma CountedMeansLive(s: State, purpose: Purpose, r: nat, misses: nat)
    requires RecordsKept(s) && Counted(s, purpose, r, misses)
    requires IsOpenFor(s, purpose, r) && s.now <= s.records[r].expiresAt
    ensures LiveCount(Tries(s, purpose), r, s.now) == misses
  {
    assert RecordKept(s, r, s.records[r]);
  }

  function After(misses: nat, e: Event): nat {
    match e case Miss => misses + 1 case Undo => 0 case Other => misses
  }

  lemma CountedStep(env: Env, s: State, a: Action, purpose: Purpose, r: nat, misses: nat)
    requires RecordsKept(s) && PhoneFlow(a) && Counted(s, purpose, r, misses)
    ensures Counted(Apply(env, s, a).state, purpose, r, After(misses, EventOf(env, s, a, purpose, r)))
  {
    hide Apply, EventOf, PhoneFlow;
    Frame(env, s, a);
    var e := EventOf(env, s, a, purpose, r);
    if e != Other {
      EventIsOpen(env, s, a, purpose, r);
      assert RecordKept(s, r, s.records[r]);
    }
    var s' := Apply(env, s, a).state;
    if IsOpenFor(s', purpose, r) {
      TriesStep(env, s, a, purpose, r);
      if r in s.records {
        assert RecordKept(s, r, s.records[r]);
      }
    }
  }

  lemma CountedAt(env: Env, tr: Trace, purpose: Purpose, r: nat, i: nat, misses: nat)
    requires tr.Valid(env) && tr.Phone() && i < |tr.actions| && Counted(tr.states[i], purpose, r, misses)
    ensures Counted(tr.states[i + 1], purpose, r, After(misses, EventAt(env, tr, purpose, r, i)))
  {
    hide Apply, Counted, EventOf;
    AlwaysSound(env, tr, i);
    assert tr.Follows(env, i) && tr.actions[i] in tr.actions;
    CountedStep(env, tr.states[i], tr.actions[i], purpose, r, misses);
  }

  lemma {:induction false} AlwaysCounted(env: Env, tr: Trace, purpose: Purpose, r: nat, n: nat)
    requires tr.Valid(env) && tr.Phone() && n < |tr.states|
    ensures Counted(tr.states[n], purpose, r, Misses(env, tr, purpose, r, n))
  {
    hide Apply, EventOf;
    if n > 0 {
      AlwaysCounted(env, tr, purpose, r, n - 1);
      CountedAt(env, tr, purpose, r, n - 1, Misses(env, tr, purpose, r, n - 1));
    }
  }

  /** The counter of a record that can still be granted is the number of wrong tries on it. */
  lemma CounterIsMisses(env: Env, tr: Trace, purpose: Purpose, r: nat, n: nat)
    requires tr.Valid(env) && tr.Phone() && n < |tr.states|
    requires IsOpenFor(tr.states[n], purpose, r) && tr.states[n].now <= tr.states[n].records[r].expiresAt
    ensures LiveCount(Tries(tr.states[n], purpose), r, tr.states[n].now) == Misses(env, tr, purpose, r, n)
  {
    hide Apply, Counted;
    AlwaysCounted(env, tr, purpose, r, n);
    AlwaysSound(env, tr, n);
    CountedMeansLive(tr.states[n], purpose, r, Misses(env, tr, purpose, r, n));
  }

  // ---- Three wrong tries ----

  /** Record r was issued once, and is either still ungranted or gone. */
  ghost predicate Ungranted(s: State, purpose: Purpose, r: nat) {
    r < s.nextPk && (r in s.records ==> IsOpenFor(s, purpose, r))
  }

  lemma MissKeepsRecords(env: Env, s: State, a: Action, purpose: Purpose, r: nat)
    requires RecordsKept(s) && EventOf(env, s, a, purpose, r) == Miss
    ensures Ungranted(Apply(env, s, a).state, purpose, r)
  {
    hide ConfirmByPhone, ConfirmReopenByPhone, Judge, RecordsKept;
    EventIsOpen(env, s, a, purpose, r);
    RecordsKeyed(s);
  }

  lemma LockHolds(env: Env, s: State, a: Action, purpose: Purpose, r: nat, misses: nat)
    requires RecordsKept(s) && PhoneFlow(a) && Counted(s, purpose, r, misses) && misses >= OTP_MAX_ATTEMPTS
    requires Ungranted(s, purpose, r)
    ensures Ungranted(Apply(env, s, a).state, purpose, r)
    ensures EventOf(env, s, a, purpose, r) != Undo
  {
    var s' := Apply(env, s, a).state;
    Frame(env, s, a);
    hide Apply, EventOf, RecordsKept, Counted, PhoneFlow;
    if r in s.records && s.now <= s.records[r].expiresAt {
      CountedMeansLive(s, purpose, r, misses);
    }
    if EventOf(env, s, a, purpose, r) == Undo {
      EventIsOpen(env, s, a, purpose, r);
    }
    if r in s'.records && r !in s.records {
      RecordsAppearOpen(env, s, a, r);
    } else if r in s'.records && s'.records[r].granted {
      GrantNeedsTries(env, s, a, purpose, r);
    } else if r in s'.records {
      OpenStaysSame(env, s, a, purpose, r);
    }
  }

  lemma OpenStaysSame(env: Env, s: State, a: Action, purpose: Purpose, r: nat)
    requires RecordsKept(s) && PhoneFlow(a) && IsOpenFor(s, purpose, r) && IsOpen(Apply(env, s, a).state.records, r)
    ensures IsOpenFor(Apply(env, s, a).state, purpose, r)
  {
    hide Apply, EventOf, PhoneFlow, RecordsKept;
    TriesStep(env, s, a, Apply(env, s, a).state.records[r].purpose, r);
  }

  lemma LockAt(env: Env, tr: Trace, purpose: Purpose, r: nat, i: nat)
    requires tr.Valid(env) && tr.Phone() && i < |tr.actions|
    requires Misses(env, tr, purpose, r, i) >= OTP_MAX_ATTEMPTS ==> Ungranted(tr.states[i], purpose, r)
    ensures Misses(env, tr, purpose, r, i) >= OTP_MAX_ATTEMPTS ==>
      Misses(env, tr, purpose, r, i + 1) >= OTP_MAX_ATTEMPTS
    ensures Misses(env, tr, purpose, r, i + 1) >= OTP_MAX_ATTEMPTS ==> Ungranted(tr.states[i + 1], purpose, r)
  {
    hide Apply, EventOf, RecordsKept, Counted, Ungranted, PhoneFlow, PartiesKeyed, EvidenceKeyed, ChecksKept;
    AlwaysSound(env, tr, i);
    AlwaysCounted(env, tr, purpose, r, i);
    assert tr.Follows(env, i) && tr.actions[i] in tr.actions;
    if Misses(env, tr, purpose, r, i) >= OTP_MAX_ATTEMPTS {
      LockHolds(env, tr.states[i], tr.actions[i], purpose, r, Misses(env, tr, purpose, r, i));
    } else if EventAt(env, tr, purpose, r, i) == Miss {
      MissKeepsRecords(env, tr.states[i], tr.actions[i], purpose, r);
    }
  }

  /** After three wrong tries, counted since the last undone confirmation, the record is never granted
      by any later step. */
  lemma {:induction false} ThreeMissesNeverGrant(env: Env, tr: Trace, purpose: Purpose, r: nat, n: nat, m: nat)
    requires tr.Valid(env) && tr.Phone() && n <= m < |tr.states|
    requires Misses(env, tr, purpose, r, n) >= 3
    ensures Misses(env, tr, purpose, r, m) >= 3
    ensures r in tr.states[m].records ==> !tr.states[m].records[r].granted
    decreases m
  {
    hide Apply, EventOf, Misses;
    LockedOutAt(env, tr, purpose, r, m);
    if n < m {
      ThreeMissesNeverGrant(env, tr, purpose, r, n, m - 1);
      LockedOutAt(env, tr, purpose, r, m - 1);
      LockAt(env, tr, purpose, r, m - 1);
    }
  }

  lemma {:induction false} LockedOutAt(env: Env, tr: Trace, purpose: Purpose, r: nat, n: nat)
    requires tr.Valid(env) && tr.Phone() && n < |tr.states|
    ensures Misses(env, tr, purpose, r, n) >= OTP_MAX_ATTEMPTS ==> Ungranted(tr.states[n], purpose, r)
  {
    hide Apply, EventOf, Ungranted;
    if n > 0 {
      LockedOutAt(env, tr, purpose, r, n - 1);
      LockAt(env, tr, purpose, r, n - 1);
    }
  }

  // ---- Undone confirmations ----

  /** All wrong tries on record r in the first n steps. */
  ghost function AllMisses(env: Env, tr: Trace, purpose: Purpose, r: nat, n: nat): nat
    requires |tr.states| == |tr.actions| + 1 && n <= |tr.actions|
  {
    if n == 0 then 0
    else AllMisses(env, tr, purpose, r, n - 1) + if EventAt(env, tr, purpose, r, n - 1) == Miss then 1 else 0
  }

  /** No right code for a consent record is ever undone, so every wrong try on it counts. */
  lemma {:induction false} ConsentMissesAllCount(env: Env, tr: Trace, r: nat, n: nat)
    requires tr.Valid(env) && tr.Phone() && n < |tr.states|
    ensures Misses(env, tr, ForConsent, r, n) == AllMisses(env, tr, ForConsent, r, n)
  {
    hide Apply, EventOf;
    if n > 0 {
      ConsentMissesAllCount(env, tr, r, n - 1);
      NoConsentUndone(env, tr, r, n - 1);
    }
  }

  lemma NoConsentUndone(env: Env, tr: Trace, r: nat, i: nat)
    requires tr.Valid(env) && tr.Phone() && i < |tr.actions|
    ensures EventAt(env, tr, ForConsent, r, i) != Undo
  {
    if EventAt(env, tr, ForConsent, r, i) == Undo {
      UndoneIsConfirm(env, tr.states[i], tr.actions[i], r);
      hide EventOf, Apply;
      ConfirmationsNeverBreak(env, tr, i, tr.actions[i].phone, tr.actions[i].code);
    }
  }

  lemma UndoneIsConfirm(env: Env, s: State, a: Action, r: nat)
    requires EventOf(env, s, a, ForConsent, r) == Undo
    ensures a.DoConfirmByPhone? && ConfirmByPhone(env, s, a.phone, a.code).outcome == Rejected(Undone(r))
  {
  }

  /** Three wrong tries on a consent record, whenever they were made, shut it for good. */
  lemma ThreeConsentMissesNeverGrant(env: Env, tr: Trace, r: nat, n: nat, m: nat)
    requires tr.Valid(env) && tr.Phone() && n <= m < |tr.states|
    requires AllMisses(env, tr, ForConsent, r, n) >= 3
    ensures r in tr.states[m].records ==> !tr.states[m].records[r].granted
  {
    hide Apply, EventOf;
    ConsentMissesAllCount(env, tr, r, n);
    ThreeMissesNeverGrant(env, tr, ForConsent, r, n, m);
  }

  /** A right reopen code is undone, its wrong tries forgotten, exactly outside REOPEN_REQUESTED and
      when everyone else holds a reopen grant already. */
  lemma ReopenUndoneExactly(env: Env, tr: Trace, n: nat, phone: string, code: string, r: nat)
    requires tr.Valid(env) && n < |tr.states|
    ensures EventOf(env, tr.states[n], DoConfirmReopenByPhone(phone, code), ForReopen, r) == Undo <==>
      && tr.states[n].status != ReopenRequested
      && Judge(env, tr.states[n], tr.states[n].reopenTries, ForReopen, phone, code) == Right(r)
      && forall p <- tr.states[n].parties :: p.pk != tr.states[n].records[r].party ==>
           HoldsReopenGrant(tr.states[n].records, p.pk)
  {
    AlwaysStanding(env, tr, n);
    hide SealFacts;
    UndoneExactly(env, tr.states[n], phone, code, r);
  }

  lemma UndoneExactly(env: Env, s: State, phone: string, code: string, r: nat)
    requires s.status == ReopenRequested ==> s.sealedAt.Some?
    ensures EventOf(env, s, DoConfirmReopenByPhone(phone, code), ForReopen, r) == Undo <==>
      && s.status != ReopenRequested
      && Judge(env, s, s.reopenTries, ForReopen, phone, code) == Right(r)
      && forall p <- s.parties :: p.pk != s.records[r].party ==> HoldsReopenGrant(s.records, p.pk)
  {
    hide Judge, HoldsReopenGrant, ConfirmReopenByPhone, AllPartiesConfirmedReopen;
    UndoneReply(env, s, phone, code, r);
  }

  lemma UndoneReply(env: Env, s: State, phone: string, code: string, r: nat)
    requires s.status == ReopenRequested ==> s.sealedAt.Some?
    ensures ConfirmReopenByPhone(env, s, phone, code).outcome == Rejected(Undone(r)) <==>
      && s.status != ReopenRequested
      && Judge(env, s, s.reopenTries, ForReopen, phone, code) == Right(r)
      && forall p <- s.parties :: p.pk != s.records[r].party ==> HoldsReopenGrant(s.records, p.pk)
  {
    hide Judge, HoldsReopenGrant, GrantRecord;
    var v := Judge(env, s, s.reopenTries, ForReopen, phone, code);
    if v.Right? {
      RightIsOpen(env, s, s.reopenTries, ForReopen, phone, code);
      forall p | p in s.parties
        ensures HoldsReopenGrant(GrantRecord(s.records, v.r, s.now), p.pk) <==>
          p.pk == s.records[v.r].party || HoldsReopenGrant(s.records, p.pk)
      {
        GrantEffect(s.records, v.r, s.now, p.pk);
      }
    }
  }

  // ---- Forgotten tries ----

  ghost function Tried(env: Env, s: State, phone: string, code: string): State {
    ConfirmReopenByPhone(env, s, phone, code).state
  }

  /** A sealed agreement with one reopen record left over from an earlier reopen: everyone else holds a
      grant, and `misses` wrong tries were made. */
  ghost predicate Leftover(env: Env, s: State, phone: string, wrong: string, right: string, r: nat, misses: nat) {
    && s.status == Sealed && s.sealedAt.Some?
    && var found := PartyByPhone(env.text, s.parties, phone);
    && found.Some? && OpenRecords(s.records, found.value.pk, ForReopen) == {r}
    && r in s.records && CodeFits(env, s, r, right) && !CodeFits(env, s, r, wrong)
    && LiveCount(s.reopenTries, r, s.now) == misses
    && forall p <- s.parties :: p.pk != s.records[r].party ==> HoldsReopenGrant(s.records, p.pk)
  }

  lemma JudgeLeftover(env: Env, s: State, phone: string, wrong: string, right: string, r: nat, misses: nat,
      code: string)
    requires Leftover(env, s, phone, wrong, right, r, misses) && misses < OTP_MAX_ATTEMPTS
    ensures Judge(env, s, s.reopenTries, ForReopen, phone, code) ==
      if CodeFits(env, s, r, code) then Right(r) else Wrong(r)
  {
    assert OpenRecords(s.records, PartyByPhone(env.text, s.parties, phone).value.pk, ForReopen) == {r};
    assert r in {r};
  }

  lemma WrongTry(env: Env, s: State, phone: string, wrong: string, right: string, r: nat, misses: nat)
    requires Leftover(env, s, phone, wrong, right, r, misses) && misses < OTP_MAX_ATTEMPTS
    ensures ConfirmReopenByPhone(env, s, phone, wrong).outcome == Rejected(BadCode(r))
    ensures Leftover(env, Tried(env, s, phone, wrong), phone, wrong, right, r, misses + 1)
  {
    JudgeLeftover(env, s, phone, wrong, right, r, misses, wrong);
    hide Judge, HoldsReopenGrant;
  }

  lemma RightTry(env: Env, s: State, phone: string, wrong: string, right: string, r: nat, misses: nat)
    requires Leftover(env, s, phone, wrong, right, r, misses) && misses < OTP_MAX_ATTEMPTS
    ensures ConfirmReopenByPhone(env, s, phone, right).outcome == Rejected(Undone(r))
    ensures Leftover(env, Tried(env, s, phone, right), phone, wrong, right, r, 0)
  {
    JudgeLeftover(env, s, phone, wrong, right, r, misses, right);
    UndoneReply(env, s, phone, right, r);
    hide Judge, HoldsReopenGrant;
  }

  lemma ReopenThenRightTry(env: Env, s: State, phone: string, wrong: string, right: string, r: nat, misses: nat)
    requires Leftover(env, s, phone, wrong, right, r, misses) && misses < OTP_MAX_ATTEMPTS
    ensures var s' := Tried(env, RequestReopen(s).state, phone, right);
      s'.status == Active && r in s'.records && s'.records[r].granted
  {
    var t := RequestReopen(s).state;
    assert t == s.(status := ReopenRequested);
    JudgeLeftover(env, s, phone, wrong, right, r, misses, right);
    assert Judge(env, t, t.reopenTries, ForReopen, phone, right) == Right(r);
    RightIsOpen(env, t, t.reopenTries, ForReopen, phone, right);
    hide Judge, HoldsReopenGrant, PartyByPhone, OpenRecords;
    EveryoneElseHolds(t, r);
    hide GrantRecord;
    RightCodeReply(env, t, phone, right, r);
  }

  lemma EveryoneElseHolds(s: State, r: nat)
    requires r in s.records && s.records[r].purpose == ForReopen && !s.records[r].granted
    requires s.records[r].party in PartyPks(s.parties)
    requires forall p <- s.parties :: p.pk != s.records[r].party ==> HoldsReopenGrant(s.records, p.pk)
    ensures s.parties != [] && forall p <- s.parties :: HoldsReopenGrant(GrantRecord(s.records, r, s.now), p.pk)
    ensures GrantRecord(s.records, r, s.now)[r].granted
  {
    hide HoldsReopenGrant;
    forall p | p in s.parties ensures HoldsReopenGrant(GrantRecord(s.records, r, s.now), p.pk) {
      GrantEffect(s.records, r, s.now, p.pk);
    }
  }

  /** Outside REOPEN_REQUESTED a right code gives back the tries: after four wrong codes the record is
      still granted. */
  lemma ForgottenTriesReopen(env: Env, s: State, phone: string, wrong: string, right: string, r: nat)
    requires Leftover(env, s, phone, wrong, right, r, 0)
    ensures var s3 := Tried(env, Tried(env, Tried(env, s, phone, wrong), phone, wrong), phone, right);
      var s5 := Tried(env, Tried(env, s3, phone, wrong), phone, wrong);
      var s' := Tried(env, RequestReopen(s5).state, phone, right);
      s'.status == Active && r in s'.records && s'.records[r].granted
  {
    hide Leftover, Tried, RequestReopen, ConfirmReopenByPhone;
    var s1 := Tried(env, s, phone, wrong);
    var s2 := Tried(env, s1, phone, wrong);
    var s3 := Tried(env, s2, phone, right);
    var s4 := Tried(env, s3, phone, wrong);
    WrongTry(env, s, phone, wrong, right, r, 0);
    WrongTry(env, s1, phone, wrong, right, r, 1);
    RightTry(env, s2, phone, wrong, right, r, 2);
    WrongTry(env, s3, phone, wrong, right, r, 0);
    WrongTry(env, s4, phone, wrong, right, r, 1);
    ReopenThenRightTry(env, Tried(env, s4, phone, wrong), phone, wrong, right, r, 2);
  }
}
