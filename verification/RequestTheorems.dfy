/** Whether a reopen request is confirmed by everyone anew: what the completion of a request rests on. */
module RequestTheorems {
  import opened Wrappers
  import opened Lifecycle
  import opened Rows
  import opened Policies
  import opened PartySteps
  import opened SealSteps
  import opened ConsentSteps
  import opened Protocol
  import opened Runs
  import opened Integrity
  import opened SealTheorems
  import opened StandingTheorems
  import opened ReopenTheorems
  import opened ConsentTheorems
  import opened PartyTheorems
  import opened AttemptTheorems

  // ---- A new grant is a code entered ----

  ghost predicate IsGrant(records: map<nat, Record>, r: nat, party: nat) {
    r in records && records[r].party == party && records[r].purpose == ForReopen && records[r].granted
  }

  /** The call enters the right code of the party's record r. */
  ghost predicate Enters(env: Env, s: State, a: Action, r: nat, party: nat) {
    && a.DoConfirmReopenByPhone? && Apply(env, s, a).outcome == Done
    && Judge(env, s, s.reopenTries, ForReopen, a.phone, a.code) == Right(r)
    && r in s.records && s.records[r].party == party
  }

  lemma ConsentGrantsNoReopen(env: Env, s: State, phone: string, code: string, r: nat, party: nat)
    requires IsGrant(ConfirmByPhone(env, s, phone, code).state.records, r, party)
    ensures IsGrant(s.records, r, party)
  {
    hide ConfirmByPhone, Judge;
    var v := Judge(env, s, s.consentTries, ForConsent, phone, code);
    if v.Right? {
      RightIsOpen(env, s, s.consentTries, ForConsent, phone, code);
    }
  }

  lemma ReopenGrants(env: Env, s: State, phone: string, code: string, r: nat, party: nat)
    requires IsGrant(ConfirmReopenByPhone(env, s, phone, code).state.records, r, party)
    requires !IsGrant(s.records, r, party)
    ensures ConfirmReopenByPhone(env, s, phone, code).outcome == Done
    ensures Judge(env, s, s.reopenTries, ForReopen, phone, code) == Right(r)
    ensures r in s.records && s.records[r].party == party
  {
    hide ConfirmReopenByPhone, Judge;
  }

  lemma RoundsGrantNothing(env: Env, s: State, codes: seq<string>, r: nat, party: nat)
    requires RecordsKept(s)
    ensures IsGrant(RequestOtp(env, s, codes).state.records, r, party) ==> IsGrant(s.records, r, party)
    ensures IsGrant(RequestReopenOtp(env, s, codes).state.records, r, party) ==> IsGrant(s.records, r, party)
  {
    hide RequestOtp, RequestReopenOtp, RecordsKept;
    if IsGrant(RequestOtp(env, s, codes).state.records, r, party) {
      if r in s.records {
        RequestMoves(env, s, codes, ForReopen, r);
      } else {
        RequestAddsOpen(env, s, codes, r);
      }
    }
    if IsGrant(RequestReopenOtp(env, s, codes).state.records, r, party) {
      if r in s.records {
        ReopenRequestMoves(env, s, codes, ForReopen, r);
      } else {
        ReopenRequestAddsOpen(env, s, codes, r);
      }
    }
  }

  lemma SettingGrantsNothing(env: Env, s: State, keys: set<string>, inputs: seq<PartyInput>, r: nat, party: nat)
    requires IsGrant(SetParties(env, s, keys, inputs).state.records, r, party)
    ensures IsGrant(s.records, r, party)
  {
    hide SetFault, NewParties, NewChecks;
  }

  /** In the phone flow a party comes to hold a reopen grant only by entering its code. */
  lemma GrantIsEntered(env: Env, s: State, a: Action, r: nat, party: nat)
    requires RecordsKept(s) && PhoneFlow(a)
    requires IsGrant(Apply(env, s, a).state.records, r, party) && !IsGrant(s.records, r, party)
    ensures Enters(env, s, a, r, party)
  {
    hide RequestOtp, RequestReopenOtp, ConfirmByPhone, ConfirmReopenByPhone, SetParties, RecordsKept, IsGrant, Judge;
    if !EditsRecords(a) {
      Frame(env, s, a);
      assert false;
    } else {
      match a
      case DoConfirmByPhone(phone, code) => ConsentGrantsNoReopen(env, s, phone, code, r, party);
      case DoConfirmReopenByPhone(phone, code) => ReopenGrants(env, s, phone, code, r, party);
      case DoRequestOtp(codes) => RoundsGrantNothing(env, s, codes, r, party);
      case DoRequestReopenOtp(codes) => RoundsGrantNothing(env, s, codes, r, party);
      case DoSetParties(keys, inputs) => SettingGrantsNothing(env, s, keys, inputs, r, party);
    }
  }

  // ---- Everyone anew ----

  /** At step k the party entered the code it was sent, and it was accepted. */
  ghost predicate ConfirmedBy(env: Env, tr: Trace, k: nat, party: nat)
    requires |tr.states| == |tr.actions| + 1
  {
    k < |tr.actions| && exists r :: Enters(env, tr.states[k], tr.actions[k], r, party)
  }

  lemma FirstGrantAt(env: Env, tr: Trace, k: nat, party: nat)
    requires tr.Valid(env) && tr.Phone() && k < |tr.actions|
    requires !HoldsReopenGrant(tr.states[k].records, party) && HoldsReopenGrant(tr.states[k + 1].records, party)
    ensures ConfirmedBy(env, tr, k, party)
  {
    hide Apply, Judge, PhoneFlow, Enters;
    AlwaysSound(env, tr, k);
    assert tr.Follows(env, k) && tr.actions[k] in tr.actions;
    var rs := tr.states[k + 1].records;
    var r :| r in rs && rs[r].party == party && rs[r].purpose == ForReopen && rs[r].granted;
    assert IsGrant(rs, r, party);
    assert !IsGrant(tr.states[k].records, r, party);
    GrantIsEntered(env, tr.states[k], tr.actions[k], r, party);
  }

  /** Between a state in which the party holds no grant and one in which it does, it confirmed. */
  lemma {:induction false} GrantSince(env: Env, tr: Trace, i: nat, n: nat, party: nat) returns (k: nat)
    requires tr.Valid(env) && tr.Phone() && i <= n < |tr.states|
    requires !HoldsReopenGrant(tr.states[i].records, party) && HoldsReopenGrant(tr.states[n].records, party)
    ensures i <= k < n && ConfirmedBy(env, tr, k, party)
  {
    hide Apply, PhoneFlow, HoldsReopenGrant, ConfirmedBy;
    if HoldsReopenGrant(tr.states[n - 1].records, party) {
      k := GrantSince(env, tr, i, n - 1, party);
    } else {
      k := n - 1;
      FirstGrantAt(env, tr, k, party);
    }
  }

  ghost predicate AsksReopenAt(tr: Trace, q: nat)
    requires |tr.states| == |tr.actions| + 1
  {
    && q < |tr.actions| && tr.actions[q].DoRequestReopen?
    && tr.states[q].status == Sealed && tr.states[q + 1].status == ReopenRequested
  }

  /** Step q asked to reopen, and step i completed that request. */
  ghost predicate Completes(env: Env, tr: Trace, q: nat, i: nat)
    requires tr.Valid(env)
  {
    && q < i < |tr.actions| && AsksReopenAt(tr, q) && ReopenedAt(tr, i)
    && forall j :: q < j <= i ==> tr.states[j].status == ReopenRequested
  }

  /** Every party confirmed after step q. */
  ghost predicate EveryoneAnew(env: Env, tr: Trace, q: nat, i: nat)
    requires |tr.states| == |tr.actions| + 1 && i < |tr.actions|
  {
    forall p <- tr.states[i].parties :: exists k: nat :: q < k <= i && ConfirmedBy(env, tr, k, p.pk)
  }

  ghost predicate NobodyHolds(s: State) {
    forall p <- s.parties :: !HoldsReopenGrant(s.records, p.pk)
  }

  lemma RequestKeepsRecords(env: Env, s: State, a: Action)
    requires a.DoRequestReopen?
    ensures Apply(env, s, a).state.records == s.records
    ensures Apply(env, s, a).state.status == ReopenRequested ==> SealHeld(s.status)
  {
    Frame(env, s, a);
    StatusStep(env, s, a);
  }

  /** If nobody holds a grant when the request is made, its completion has everyone's confirmation since. */
  lemma AnewIfNobodyHeld(env: Env, tr: Trace, q: nat, i: nat)
    requires tr.Valid(env) && tr.Phone() && Completes(env, tr, q, i) && NobodyHolds(tr.states[q])
    ensures EveryoneAnew(env, tr, q, i)
  {
    hide Apply, PhoneFlow, HoldsReopenGrant, ConfirmedBy;
    assert tr.Follows(env, q);
    RequestKeepsRecords(env, tr.states[q], tr.actions[q]);
    FrozenWhileHeld(env, tr, q, i);
    RevisionStepAt(env, tr, i);
    ReopenNeedsEveryGrant(env, tr, i);
    forall p | p in tr.states[i].parties ensures exists k: nat :: q < k <= i && ConfirmedBy(env, tr, k, p.pk) {
      var k := GrantSince(env, tr, q, i + 1, p.pk);
      assert k != q by { RequestConfirmsNothing(env, tr, q, p.pk); }
    }
  }

  lemma RequestConfirmsNothing(env: Env, tr: Trace, k: nat, party: nat)
    requires |tr.states| == |tr.actions| + 1 && k < |tr.actions| && !tr.actions[k].DoConfirmReopenByPhone?
    ensures !ConfirmedBy(env, tr, k, party)
  {
    hide Apply, Judge;
  }

  // ---- Without the party that holds a grant ----

  const CODE := "000000"

  /** Record r is the only open reopen record of the party, and takes the code. */
  ghost predicate OpenFor(env: Env, s: State, party: nat, r: nat) {
    && OpenRecords(s.records, party, ForReopen) == {r} && r in s.records
    && CodeFits(env, s, r, CODE) && LiveCount(s.reopenTries, r, s.now) == 0
  }

  /** From the i-th on, every party's record waits for its code; records follow the parties from key n. */
  ghost predicate Pending(env: Env, s: State, n: nat, i: nat) {
    && s.status == ReopenRequested && s.sealedAt.Some?
    && forall j: nat :: i <= j < |s.parties| ==> OpenFor(env, s, s.parties[j].pk, n + j)
  }

  predicate SameCodes(codes: seq<string>, n: nat) {
    |codes| == n && forall j :: 0 <= j < n ==> codes[j] == CODE
  }

  lemma IssuedIs(env: Env, s: State, codes: seq<string>, j: nat)
    requires j < |s.parties| && SameCodes(codes, |s.parties|)
    ensures var rs := IssueCodes(env, s, ForReopen, codes).records;
      s.nextPk + j in rs && rs[s.nextPk + j] == RoundRecord(env, s, ForReopen, codes, j)
  {
    assert s.nextPk + j in NewPks(s.nextPk, |s.parties|);
  }

  lemma RoundOpensOne(env: Env, s: State, codes: seq<string>, j: nat)
    requires PartiesKeyed(s) && (forall k :: k in s.records ==> k < s.nextPk)
    requires forall k :: IsOpen(s.records, k) ==> s.records[k].purpose != ForReopen
    requires j < |s.parties| && SameCodes(codes, |s.parties|)
    ensures OpenRecords(IssueCodes(env, s, ForReopen, codes).records, s.parties[j].pk, ForReopen) == {s.nextPk + j}
  {
    hide IssueCodes;
    var rs := IssueCodes(env, s, ForReopen, codes).records;
    IssuedIs(env, s, codes, j);
    forall k | k in OpenRecords(rs, s.parties[j].pk, ForReopen) ensures k == s.nextPk + j {
      var i := IssuedRecord(env, s, ForReopen, codes, k);
      assert k in s.records ==> IsOpen(s.records, k);
    }
  }

  /** A new round gives every party one record that takes its code, but for the cached counters. */
  lemma RoundOpens(env: Env, s: State, codes: seq<string>, j: nat)
    requires PartiesKeyed(s) && RecordsKept(s) && s.status == ReopenRequested
    requires j < |s.parties| && SameCodes(codes, |s.parties|)
    ensures var s' := RequestReopenOtp(env, s, codes).state;
      && OpenRecords(s'.records, s.parties[j].pk, ForReopen) == {s.nextPk + j}
      && s.nextPk + j in s'.records && CodeFits(env, s', s.nextPk + j, CODE)
  {
    RecordsKeyed(s);
    hide IssueCodes, PartiesKeyed, RecordsKept;
    var cleared := s.(records := DropOpenReopen(s.records));
    KeyedAlike(s, cleared);
    RoundOpensOne(env, cleared, codes, j);
    IssuedIs(env, cleared, codes, j);
  }

  lemma KeyedAlike(s: State, s': State)
    requires PartiesKeyed(s) && s'.parties == s.parties && s'.nextPk == s.nextPk
    ensures PartiesKeyed(s')
  {
  }

  /** Entering the right code of record r: the reopen completes if everyone else holds a grant, and else
      only that record is granted. */
  lemma EntersRight(env: Env, s: State, phone: string, r: nat)
    requires s.status == ReopenRequested && s.sealedAt.Some?
    requires Judge(env, s, s.reopenTries, ForReopen, phone, CODE) == Right(r)
    ensures var reply := ConfirmReopenByPhone(env, s, phone, CODE);
      && reply.outcome == Done
      && (reply.state.status == Active ||
          reply.state == s.(records := GrantRecord(s.records, r, s.now), reopenTries := s.reopenTries - {r}))
  {
    hide Judge, GrantRecord, AllPartiesConfirmedReopen, SnapshotNow;
  }

  lemma JudgesOpen(env: Env, s: State, p: Party, r: nat)
    requires PartyByPhone(env.text, s.parties, p.phone) == Some(p) && OpenFor(env, s, p.pk, r)
    ensures Judge(env, s, s.reopenTries, ForReopen, p.phone, CODE) == Right(r)
  {
    hide PartyByPhone, CodeFits;
    assert OpenRecords(s.records, p.pk, ForReopen) == {r} && r in {r};
  }

  lemma OthersStayOpen(env: Env, s: State, r: nat, party: nat, k: nat)
    requires OpenFor(env, s, party, k) && r in s.records && s.records[r].party != party
    ensures OpenFor(env, s.(records := GrantRecord(s.records, r, s.now), reopenTries := s.reopenTries - {r}), party, k)
  {
    var s' := s.(records := GrantRecord(s.records, r, s.now), reopenTries := s.reopenTries - {r});
    assert k in OpenRecords(s.records, party, ForReopen);
    assert OpenRecords(s'.records, party, ForReopen) == OpenRecords(s.records, party, ForReopen);
  }

  /** The parties before the i-th, and the x-th, hold a grant. */
  ghost predicate HeldBefore(s: State, i: nat, x: nat) {
    forall j: nat :: j < |s.parties| && (j < i || j == x) ==> HoldsReopenGrant(s.records, s.parties[j].pk)
  }

  /** From the i-th on there is a party besides the x-th. */
  predicate Waits(s: State, i: nat, x: nat) {
    if i == x then i + 1 < |s.parties| else i < |s.parties|
  }

  /** Record r of the i-th party is granted. */
  function Entered(s: State, r: nat): State
    requires r in s.records
  {
    s.(records := GrantRecord(s.records, r, s.now), reopenTries := s.reopenTries - {r})
  }

  lemma StillPending(env: Env, s: State, n: nat, i: nat)
    requires Pending(env, s, n, i) && PartiesKeyed(s) && i < |s.parties| && n + i in s.records
    requires s.records[n + i].party == s.parties[i].pk
    ensures Pending(env, Entered(s, n + i), n, i + 1)
  {
    hide OpenFor;
    forall j: nat | i + 1 <= j < |s.parties| ensures OpenFor(env, Entered(s, n + i), s.parties[j].pk, n + j) {
      OthersStayOpen(env, s, n + i, s.parties[j].pk, n + j);
    }
  }

  lemma StillHeld(s: State, r: nat, i: nat, x: nat)
    requires HeldBefore(s, i, x) && i < |s.parties| && r in s.records
    requires s.records[r].party == s.parties[i].pk && s.records[r].purpose == ForReopen && !s.records[r].granted
    ensures HeldBefore(Entered(s, r), i + 1, x)
  {
    hide HoldsReopenGrant, GrantRecord;
    forall j: nat | j < |s.parties| && (j < i + 1 || j == x)
      ensures HoldsReopenGrant(Entered(s, r).records, s.parties[j].pk)
    {
      GrantEffect(s.records, r, s.now, s.parties[j].pk);
    }
  }

  lemma SomeoneWaits(s: State, i: nat, x: nat)
    requires HeldBefore(s, i, x) && exists p <- s.parties :: !HoldsReopenGrant(s.records, p.pk)
    ensures Waits(s, i, x)
  {
    hide HoldsReopenGrant;
    var p :| p in s.parties && !HoldsReopenGrant(s.records, p.pk);
    var j: nat :| j < |s.parties| && s.parties[j] == p;
  }

  /** The i-th party enters its code. */
  lemma NextEnters(env: Env, s: State, n: nat, i: nat, x: nat)
    requires Pending(env, s, n, i) && HeldBefore(s, i, x) && PartiesKeyed(s) && i < |s.parties|
    requires PartyByPhone(env.text, s.parties, s.parties[i].phone) == Some(s.parties[i])
    ensures Judge(env, s, s.reopenTries, ForReopen, s.parties[i].phone, CODE) == Right(n + i)
    ensures n + i in s.records && s.records[n + i].party == s.parties[i].pk
    ensures var s' := ConfirmReopenByPhone(env, s, s.parties[i].phone, CODE).state;
      s'.status == Active ||
      (s'.parties == s.parties && Pending(env, s', n, i + 1) && HeldBefore(s', i + 1, x) && Waits(s', i + 1, x))
  {
    hide ConfirmReopenByPhone, Judge, HoldsReopenGrant, HeldBefore, Waits, PartyByPhone, PartiesKeyed;
    var r, phone := n + i, s.parties[i].phone;
    JudgesOpen(env, s, s.parties[i], r);
    assert r in OpenRecords(s.records, s.parties[i].pk, ForReopen);
    EntersRight(env, s, phone, r);
    RightCodeReply(env, s, phone, CODE, r);
    StillPending(env, s, n, i);
    StillHeld(s, r, i, x);
    hide Pending, OpenFor, OpenRecords;
    var s' := ConfirmReopenByPhone(env, s, phone, CODE).state;
    if s'.status != Active {
      assert s' == Entered(s, r);
      assert s.parties[i] in s.parties;
      SomeoneWaits(s', i + 1, x);
    }
  }

  /** The request made at step q is open, and the party has not confirmed since. */
  ghost predicate Asking(env: Env, tr: Trace, q: nat, party: nat) {
    && tr.Valid(env) && tr.Phone() && AsksReopenAt(tr, q)
    && (forall j :: q < j < |tr.states| ==> tr.states[j].status == ReopenRequested)
    && (forall k: nat :: q < k < |tr.actions| ==> !ConfirmedBy(env, tr, k, party))
  }

  lemma SameConfirmations(env: Env, tr: Trace, after: Trace, k: nat, party: nat)
    requires |tr.states| == |tr.actions| + 1 && |after.states| == |after.actions| + 1
    requires Prolongs(tr, after) && k < |tr.actions|
    ensures ConfirmedBy(env, after, k, party) == ConfirmedBy(env, tr, k, party)
  {
    hide Apply, Enters;
    assert after.states[k] == tr.states[k] && after.actions[k] == tr.actions[k];
  }

  /** A call that is no confirmation of the party. */
  lemma AsksOn(env: Env, tr: Trace, q: nat, party: nat, a: Action) returns (after: Trace)
    requires Asking(env, tr, q, party) && PhoneFlow(a)
    requires forall r :: !Enters(env, Last(tr), a, r, party)
    ensures after.Valid(env) && after.Phone() && Prolongs(tr, after)
    ensures after.actions == tr.actions + [a] && after.states == tr.states + [Apply(env, Last(tr), a).state]
    ensures forall k: nat :: q < k < |after.actions| ==> !ConfirmedBy(env, after, k, party)
  {
    hide Apply, PhoneFlow, Enters;
    after := Extend(env, tr, a);
    forall k: nat | q < k < |after.actions| ensures !ConfirmedBy(env, after, k, party) {
      if k < |tr.actions| {
        SameConfirmations(env, tr, after, k, party);
      } else {
        assert after.states[k] == Last(tr) && after.actions[k] == a;
      }
    }
  }

  lemma ConfirmApplies(env: Env, s: State, phone: string, code: string)
    ensures Apply(env, s, DoConfirmReopenByPhone(phone, code)) == ConfirmReopenByPhone(env, s, phone, code)
    ensures PhoneFlow(DoConfirmReopenByPhone(phone, code))
  {
    hide ConfirmReopenByPhone;
  }

  lemma EntersOther(env: Env, s: State, phone: string, r: nat, party: nat)
    requires Judge(env, s, s.reopenTries, ForReopen, phone, CODE) == Right(r)
    requires r in s.records && s.records[r].party != party
    ensures forall k :: !Enters(env, s, DoConfirmReopenByPhone(phone, CODE), k, party)
  {
    hide Apply, Judge;
  }

  lemma FindsEach(env: Env, tr: Trace, i: nat)
    requires tr.Valid(env) && tr.Phone() && i < |Last(tr).parties|
    ensures var ps := Last(tr).parties; PartyByPhone(env.text, ps, ps[i].phone) == Some(ps[i]) && PartiesKeyed(Last(tr))
  {
    hide Apply;
    PhoneNamesOneParty(env, tr, |tr.states| - 1, Last(tr).parties, Last(tr).parties[i].phone);
    AlwaysSound(env, tr, |tr.states| - 1);
  }

  /** The i-th party enters its code in the run. */
  lemma NextConfirms(env: Env, tr: Trace, q: nat, n: nat, i: nat, x: nat) returns (after: Trace)
    requires tr.states != [] && x < |Last(tr).parties| && Asking(env, tr, q, Last(tr).parties[x].pk)
    requires i < |Last(tr).parties| && i != x && q + 1 < |tr.states|
    requires Pending(env, Last(tr), n, i) && HeldBefore(Last(tr), i, x)
    ensures after.Valid(env) && after.Phone() && Prolongs(tr, after) && |after.actions| == |tr.actions| + 1
    ensures forall k: nat :: q < k < |after.actions| ==> !ConfirmedBy(env, after, k, Last(tr).parties[x].pk)
    ensures Completes(env, after, q, |tr.actions|) ||
      (&& Asking(env, after, q, Last(tr).parties[x].pk) && Last(after).parties == Last(tr).parties
       && Pending(env, Last(after), n, i + 1) && HeldBefore(Last(after), i + 1, x) && Waits(Last(after), i + 1, x))
  {
    hide Apply, PhoneFlow, Enters, Judge, HeldBefore, Waits, PartyByPhone, ConfirmReopenByPhone, ConfirmedBy, OpenFor;
    var s := Last(tr);
    FindsEach(env, tr, i);
    NextEnters(env, s, n, i, x);
    assert s.parties[i].pk != s.parties[x].pk;
    EntersOther(env, s, s.parties[i].phone, n + i, s.parties[x].pk);
    ConfirmApplies(env, s, s.parties[i].phone, CODE);
    after := AsksOn(env, tr, q, s.parties[x].pk, DoConfirmReopenByPhone(s.parties[i].phone, CODE));
    hide PartiesKeyed;
    assert forall j :: 0 <= j < |tr.states| ==> after.states[j] == tr.states[j];
    assert after.actions[q] == tr.actions[q];
  }

  /** The parties from the i-th on enter their codes, all but the x-th, until the request completes. */
  lemma {:induction false} OthersConfirm(env: Env, tr: Trace, q: nat, n: nat, i: nat, x: nat)
    returns (after: Trace, c: nat)
    requires q + 1 < |tr.states| && x < |Last(tr).parties| && Asking(env, tr, q, Last(tr).parties[x].pk)
    requires Pending(env, Last(tr), n, i) && HeldBefore(Last(tr), i, x) && Waits(Last(tr), i, x)
    ensures after.Valid(env) && after.Phone() && Prolongs(tr, after) && Completes(env, after, q, c)
    ensures forall k: nat :: q < k <= c ==> !ConfirmedBy(env, after, k, Last(tr).parties[x].pk)
    decreases |Last(tr).parties| - i
  {
    hide Apply, PhoneFlow, HoldsReopenGrant, ConfirmedBy, OpenFor;
    if i == x {
      after, c := OthersConfirm(env, tr, q, n, i + 1, x);
    } else {
      hide HeldBefore, Pending, Trace.Valid;
      after := NextConfirms(env, tr, q, n, i, x);
      c := |tr.actions|;
      if !Completes(env, after, q, c) {
        var mid := after;
        after, c := OthersConfirm(env, mid, q, n, i + 1, x);
      }
    }
  }

  lemma NewIsUntried(env: Env, tr: Trace, m: nat, r: nat)
    requires tr.Valid(env) && tr.Phone() && m < |tr.actions| && tr.actions[m].DoRequestReopenOtp?
    requires tr.states[m].nextPk <= r && IsOpenFor(tr.states[m + 1], ForReopen, r)
    requires tr.states[m + 1].now <= tr.states[m + 1].records[r].expiresAt
    ensures LiveCount(tr.states[m + 1].reopenTries, r, tr.states[m + 1].now) == 0
  {
    hide Apply, EventOf;
    AlwaysCounted(env, tr, ForReopen, r, m);
    NoEvent(env, tr.states[m], tr.actions[m], r);
    CounterIsMisses(env, tr, ForReopen, r, m + 1);
  }

  lemma NoEvent(env: Env, s: State, a: Action, r: nat)
    requires a.DoRequestReopenOtp?
    ensures EventOf(env, s, a, ForReopen, r) == Other
  {
    hide Apply;
  }

  lemma CodesApply(env: Env, s: State, codes: seq<string>)
    ensures Apply(env, s, DoRequestReopenOtp(codes)) == RequestReopenOtp(env, s, codes)
    ensures PhoneFlow(DoRequestReopenOtp(codes))
  {
    hide RequestReopenOtp;
  }

  lemma RoundKeepsHolder(env: Env, s: State, codes: seq<string>, party: nat)
    requires RecordsKept(s) && HoldsReopenGrant(s.records, party)
    ensures HoldsReopenGrant(RequestReopenOtp(env, s, codes).state.records, party)
  {
    hide RequestReopenOtp, RequestOtp, ReissueConsent;
    RecordsKeyed(s);
    var k :| k in s.records && s.records[k].party == party && s.records[k].purpose == ForReopen && s.records[k].granted;
    RoundsKeepOld(env, s, codes, k);
  }

  lemma OpenedIsOpen(env: Env, s: State, party: nat, r: nat)
    requires OpenRecords(s.records, party, ForReopen) == {r} && CodeFits(env, s, r, CODE)
    ensures IsOpenFor(s, ForReopen, r) && s.now <= s.records[r].expiresAt
  {
    assert r in OpenRecords(s.records, party, ForReopen);
  }

  /** Codes are sent for a request just made. */
  lemma CodesSent(env: Env, tr: Trace, q: nat, x: nat) returns (after: Trace, n: nat)
    requires tr.Valid(env) && tr.Phone() && |tr.actions| == q + 1 && AsksReopenAt(tr, q)
    requires x < |Last(tr).parties| && HoldsReopenGrant(Last(tr).records, Last(tr).parties[x].pk)
    ensures after.states != [] && Asking(env, after, q, Last(tr).parties[x].pk) && Prolongs(tr, after)
    ensures Last(after).parties == Last(tr).parties && Pending(env, Last(after), n, 0) && HeldBefore(Last(after), 0, x)
  {
    hide Apply, PhoneFlow, Enters, HoldsReopenGrant, ConfirmedBy, RequestReopenOtp, PartiesKeyed, RecordsKept;
    hide EvidenceKeyed, ChecksKept, SealFacts, CodeFits, OpenRecords;
    var s, party := Last(tr), Last(tr).parties[x].pk;
    var codes := seq(|s.parties|, _ => CODE);
    n := s.nextPk;
    AlwaysSound(env, tr, q + 1);
    AlwaysStanding(env, tr, q + 1);
    CodesApply(env, s, codes);
    RoundKeepsHolder(env, s, codes, party);
    NoCodeEntered(env, s, codes, party);
    after := AsksOn(env, tr, q, party, DoRequestReopenOtp(codes));
    var s' := Last(after);
    assert after.states[q] == tr.states[q] && after.states[q + 1] == s && after.states[q + 2] == s';
    forall j: nat | j < |s'.parties| ensures OpenFor(env, s', s'.parties[j].pk, n + j) {
      RoundOpens(env, s, codes, j);
      OpenedIsOpen(env, s', s'.parties[j].pk, n + j);
      NewIsUntried(env, after, q + 1, n + j);
    }
  }

  lemma NoCodeEntered(env: Env, s: State, codes: seq<string>, party: nat)
    ensures forall r :: !Enters(env, s, DoRequestReopenOtp(codes), r, party)
  {
    hide Apply;
  }

  /** If some party holds a grant when the request is made, the others can complete it without that party. */
  lemma CompletesWithout(env: Env, tr: Trace, q: nat, x: nat) returns (after: Trace, c: nat)
    requires tr.Valid(env) && tr.Phone() && |tr.actions| == q + 1 && AsksReopenAt(tr, q)
    requires x < |Last(tr).parties| && HoldsReopenGrant(Last(tr).records, Last(tr).parties[x].pk)
    ensures after.Valid(env) && after.Phone() && Prolongs(tr, after) && Completes(env, after, q, c)
    ensures forall k: nat :: q < k <= c ==> !ConfirmedBy(env, after, k, Last(tr).parties[x].pk)
  {
    hide Apply, PhoneFlow, HoldsReopenGrant, ConfirmedBy, Pending, HeldBefore, SealFacts;
    AlwaysStanding(env, tr, q + 1);
    var sent, n := CodesSent(env, tr, q, x);
    hide Trace.Valid;
    after, c := OthersConfirm(env, sent, q, n, 0, x);
  }

  ghost predicate Continues(env: Env, tr: Trace, after: Trace) {
    after.Valid(env) && after.Phone() && Prolongs(tr, after)
  }

  /** However the run goes on, the request is completed only with everyone's confirmation after it. */
  ghost predicate AlwaysAnew(env: Env, tr: Trace, q: nat) {
    forall after: Trace, i: nat ::
      Continues(env, tr, after) && Completes(env, after, q, i) ==> EveryoneAnew(env, after, q, i)
  }

  /** A reopen request of the phone flow is sure to be confirmed by every party anew if and only if no party
      holds a reopen grant when it is made, whether from a completed or a cancelled reopen. */
  lemma ConfirmedAnewExactly(env: Env, tr: Trace, q: nat)
    requires tr.Valid(env) && tr.Phone() && |tr.actions| == q + 1 && AsksReopenAt(tr, q)
    ensures AlwaysAnew(env, tr, q) <==> NobodyHolds(tr.states[q])
  {
    hide Apply, PhoneFlow, HoldsReopenGrant, ConfirmedBy, EveryoneAnew, AsksReopenAt;
    if NobodyHolds(tr.states[q]) {
      forall after: Trace, i: nat | Continues(env, tr, after) && Completes(env, after, q, i)
        ensures EveryoneAnew(env, after, q, i)
      {
        assert after.states[q] == tr.states[q];
        AnewIfNobodyHeld(env, after, q, i);
      }
    } else {
      var p :| p in tr.states[q].parties && HoldsReopenGrant(tr.states[q].records, p.pk);
      var x: nat :| x < |tr.states[q].parties| && tr.states[q].parties[x] == p;
      assert tr.Follows(env, q);
      AsksAreLocked(env, tr.states[q], tr.actions[q]);
      AskedStep(tr, q);
      var after, c := CompletesWithout(env, tr, q, x);
      HolderMissing(env, tr, after, q, c, p);
    }
  }

  lemma AskedStep(tr: Trace, q: nat)
    requires |tr.states| == |tr.actions| + 1 && AsksReopenAt(tr, q)
    ensures q < |tr.actions| && tr.actions[q].DoRequestReopen?
  {
  }

  lemma AsksAreLocked(env: Env, s: State, a: Action)
    ensures a.DoRequestReopen? ==>
      var s' := Apply(env, s, a).state; s'.parties == s.parties && s'.records == s.records
  {
    hide Apply;
    Frame(env, s, a);
  }

  lemma HolderMissing(env: Env, tr: Trace, after: Trace, q: nat, c: nat, p: Party)
    requires tr.Valid(env) && |tr.actions| == q + 1 && Continues(env, tr, after) && Completes(env, after, q, c)
    requires p in Last(tr).parties && forall k: nat :: q < k <= c ==> !ConfirmedBy(env, after, k, p.pk)
    ensures !EveryoneAnew(env, after, q, c)
  {
    hide Apply, PhoneFlow, ConfirmedBy;
    assert after.states[q + 1] == Last(tr);
    FrozenWhileHeld(env, after, q + 1, c);
  }
}
