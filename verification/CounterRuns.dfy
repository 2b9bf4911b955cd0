/** Runs of the phone flow in which the promises fail: a seal nobody consented to, four wrong tries on a
    code that is granted all the same, and a reopen that one party's code completes. */
module CounterRuns {
  import opened Wrappers
  import opened Text
  import opened Lifecycle
  import opened Rows
  import opened Policies
  import opened IdentitySteps
  import opened PartySteps
  import opened EvidenceSteps
  import opened SealSteps
  import opened ConsentSteps
  import opened Protocol
  import opened Runs
  import opened SealTheorems
  import opened ReopenTheorems
  import opened CoverageTheorems
  import opened AttemptTheorems
  import opened ReturnTheorems
  import opened RequestTheorems
  import opened PartyIdentity
  import opened Validators
  import opened UploadTheorems
  import opened Integrity
  import opened ReviewTheorems
  import opened SampleRun

  lemma QuickIsPhone(env: Env, tr: Trace)
    requires Quick(env, tr)
    ensures tr.Valid(env) && tr.Phone()
  {
    hide Apply, PhoneFlow, Trace.Valid;
  }

  // ---- A seal without consent ----

  lemma OldTitles(env: Env, early: Trace, tr: Trace, s: State)
    requires Early(env, early) && early.states + [Renamed(env, s)] <= tr.states
    ensures tr.states[|early.states|].terms.title == NEW_TITLE != TITLE
    ensures forall j :: 0 <= j < |early.states| ==> tr.states[j].terms.title == TITLE
  {
    hide Apply, Trace.Valid;
    forall j | 0 <= j < |early.states| ensures tr.states[j].terms.title == TITLE {
      assert tr.states[j] == early.states[j] && early.states[j] in early.states;
    }
    assert |NEW_TITLE| != |TITLE|;
  }

  /** The renamed agreement is sealed. */
  lemma RenamedSealRun(env: Env) returns (tr: Trace, n: nat)
    ensures Quick(env, tr) && SealsAt(env, tr, n)
    ensures tr.states[n].terms.title == NEW_TITLE != TITLE
    ensures forall j :: 0 <= j < n ==> tr.states[j].terms.title == TITLE
  {
    hide Apply, PhoneFlow, Sealable, Trace.Valid, Early, Renamed;
    var early, renamed, s := RenamedRun(env);
    RenamedIsSealable(env, s);
    RenamedIsActive(env, s);
    tr := Seals(env, renamed);
    n := |renamed.actions|;
    Lengths(env, renamed);
    Lengths(env, tr);
    QuickIsPhone(env, tr);
    OldTitles(env, early, tr, s);
  }

  lemma RenamedIsActive(env: Env, s: State)
    ensures Renamed(env, s).status == Active && Renamed(env, s).terms.title == NEW_TITLE
  {
  }

  /** Both parties consented, the title was changed, and the agreement was sealed with no consent to what
      is sealed. */
  lemma SealWithoutConsent(env: Env) returns (tr: Trace, n: nat)
    ensures tr.Valid(env) && tr.Phone() && SealsAt(env, tr, n) && !ConsentCovers(env, tr, n)
    ensures tr.states[n].terms.title == NEW_TITLE && forall j :: 0 <= j < n ==> tr.states[j].terms.title == TITLE
  {
    hide Apply, PhoneFlow, Trace.Valid, ConsentCovers, SealsAt, Trace.Phone;
    tr, n := RenamedSealRun(env);
    QuickIsPhone(env, tr);
    var k := ConsentCoversExactly(env, tr, n);
    assert tr.states[k].terms.title != tr.states[n].terms.title;
  }

  // ---- A round of reopen codes ----

  /** Sealed or asked to reopen, with every record granted and no try counted. */
  ghost predicate Settled(s: State) {
    && SealHeld(s.status) && s.sealedAt.Some? && s.now == 0 && s.parties == Both() && s.reopenTries == map[]
    && forall k :: k in s.records ==> k < s.nextPk && s.records[k].granted
  }

  function Requested(s: State): State {
    s.(status := ReopenRequested)
  }

  /** The codes were sent. */
  function Sent(env: Env, s: State, code: string): State {
    s.(records := s.records[s.nextPk := Issued(env, 0, ForReopen, BUYER_CODE)]
                           [s.nextPk + 1 := Issued(env, 1, ForReopen, code)],
       status := ReopenRequested, nextPk := s.nextPk + 2)
  }

  /** The buyer's was entered. */
  function BuyerIn(env: Env, s: State, code: string): State {
    s.(records := s.records[s.nextPk := Granted(Issued(env, 0, ForReopen, BUYER_CODE))]
                           [s.nextPk + 1 := Issued(env, 1, ForReopen, code)],
       status := ReopenRequested, nextPk := s.nextPk + 2)
  }

  lemma Sends(env: Env, s: State, code: string)
    requires Settled(s)
    ensures RequestReopenOtp(env, Requested(s), [BUYER_CODE, code]).state == Sent(env, s, code)
  {
    hide IssueCodes, Issued;
    assert DropOpenReopen(s.records) == s.records;
    TwoIssued(env, Requested(s), ForReopen, BUYER_CODE, code);
  }

  lemma BuyerIsRight(env: Env, s: State, code: string)
    requires Settled(s)
    ensures var a := Sent(env, s, code);
      Judge(env, a, a.reopenTries, ForReopen, BUYER_PHONE, BUYER_CODE) == Right(s.nextPk)
  {
    hide Judge;
    var a := Sent(env, s, code);
    assert OpenRecords(a.records, 0, ForReopen) == {s.nextPk};
    JudgesCode(env, a, a.reopenTries, ForReopen, Buyer(), s.nextPk, BUYER_CODE);
  }

  /** The seller's record is the only open one of his. */
  lemma SellerIsOpen(env: Env, s: State, code: string)
    requires Settled(s)
    ensures OpenRecords(BuyerIn(env, s, code).records, 1, ForReopen) == {s.nextPk + 1}
  {
  }

  ghost predicate NoReopenGrants(s: State) {
    forall k :: k in s.records ==> s.records[k].purpose == ForConsent
  }

  /** In the first round the buyer's code alone does not reopen. */
  lemma BuyerEnters(env: Env, s: State, code: string)
    requires Settled(s) && NoReopenGrants(s)
    ensures ConfirmReopenByPhone(env, Sent(env, s, code), BUYER_PHONE, BUYER_CODE).state == BuyerIn(env, s, code)
    ensures HoldsReopenGrant(BuyerIn(env, s, code).records, 0)
  {
    hide Judge, Issued, CompleteBilateralReopen;
    BuyerIsRight(env, s, code);
    var after := BuyerIn(env, s, code);
    assert GrantRecord(Sent(env, s, code).records, s.nextPk, 0) == after.records;
    assert !HoldsReopenGrant(after.records, 1) && HoldsReopenGrant(after.records, 0) by {
      NobodyYet(env, s, code);
    }
    hide HoldsReopenGrant;
    assert Both()[1] in Both();
  }

  lemma NobodyYet(env: Env, s: State, code: string)
    requires Settled(s) && NoReopenGrants(s)
    ensures var rs := BuyerIn(env, s, code).records; !HoldsReopenGrant(rs, 1) && HoldsReopenGrant(rs, 0)
  {
    var rs := BuyerIn(env, s, code).records;
    assert rs[s.nextPk].granted;
  }

  /** Sealed for the first time. */
  ghost predicate FirstSealed(s: State) {
    && Settled(s) && NoReopenGrants(s) && s.status == Sealed && Sealable(s) && s.terms.title == NEW_TITLE
    && s.sealedAt == Some(0) && s.revisions == []
  }

  lemma RenamedSeals(env: Env, s: State)
    requires ReadyToConsent(s)
    ensures FirstSealed(SealedOf(env, Renamed(env, s)))
  {
    hide Complete, PayloadNow;
  }

  lemma SealedRun(env: Env) returns (tr: Trace)
    ensures Quick(env, tr) && FirstSealed(Last(tr))
  {
    hide Apply, PhoneFlow, Sealable, Trace.Valid, FirstSealed, SealedOf;
    var early, renamed, s := RenamedRun(env);
    RenamedIsSealable(env, s);
    RenamedSeals(env, s);
    tr := Seals(env, renamed);
  }

  lemma Requests(env: Env, tr: Trace) returns (after: Trace)
    requires Quick(env, tr) && Last(tr).status == Sealed
    ensures Quick(env, after) && Prolongs(tr, after) && |after.states| == |after.actions| + 1
    ensures after.actions == tr.actions + [DoRequestReopen] && Last(after) == Requested(Last(tr))
  {
    hide SetParties, PatchParties, AddParty, UpdateTerms, GenerateUploadUrl, UploadEvidence, ConfirmUpload;
    hide VerifyIdentity, CreateLivenessSession, ProcessLivenessResult, ResolveManualReview, CleanupReference;
    hide ConfirmByPhone, ConfirmReopenByPhone, VerifyOtp, RequestOtp, RequestReopenOtp, ReissueConsent, SyncConsent;
    hide Trace.Valid;
    Lengths(env, tr);
    after := Do(env, tr, DoRequestReopen);
  }

  lemma Cancels(env: Env, tr: Trace) returns (after: Trace)
    requires Quick(env, tr) && Last(tr).status == ReopenRequested
    ensures Quick(env, after) && Prolongs(tr, after) && |after.states| == |after.actions| + 1
    ensures after.actions == tr.actions + [DoCancelReopen] && Last(after) == Last(tr).(status := Sealed)
  {
    hide SetParties, PatchParties, AddParty, UpdateTerms, GenerateUploadUrl, UploadEvidence, ConfirmUpload;
    hide VerifyIdentity, CreateLivenessSession, ProcessLivenessResult, ResolveManualReview, CleanupReference;
    hide ConfirmByPhone, ConfirmReopenByPhone, VerifyOtp, RequestOtp, RequestReopenOtp, ReissueConsent, SyncConsent;
    hide Trace.Valid;
    Lengths(env, tr);
    after := Do(env, tr, DoCancelReopen);
  }

  lemma AsksReopen(env: Env, tr: Trace, code: string) returns (after: Trace)
    requires Quick(env, tr) && Settled(Last(tr)) && Last(tr).status == Sealed
    ensures Quick(env, after) && Prolongs(tr, after) && Last(after) == Sent(env, Last(tr), code)
    ensures after.actions == tr.actions + [DoRequestReopen, DoRequestReopenOtp([BUYER_CODE, code])]
  {
    hide SetParties, PatchParties, AddParty, UpdateTerms, GenerateUploadUrl, UploadEvidence, ConfirmUpload;
    hide VerifyIdentity, CreateLivenessSession, ProcessLivenessResult, ResolveManualReview, CleanupReference;
    hide ConfirmByPhone, ConfirmReopenByPhone, VerifyOtp, RequestOtp, RequestReopenOtp, ReissueConsent, SyncConsent;
    hide Trace.Valid;
    Lengths(env, tr);
    Sends(env, Last(tr), code);
    after := Requests(env, tr);
    after := Do(env, after, DoRequestReopenOtp([BUYER_CODE, code]));
  }

  lemma Confirms(env: Env, tr: Trace, phone: string, code: string) returns (after: Trace)
    requires Quick(env, tr)
    ensures Quick(env, after) && Prolongs(tr, after) && Last(after) == Tried(env, Last(tr), phone, code)
    ensures after.actions == tr.actions + [DoConfirmReopenByPhone(phone, code)]
  {
    hide SetParties, PatchParties, AddParty, UpdateTerms, GenerateUploadUrl, UploadEvidence, ConfirmUpload;
    hide VerifyIdentity, CreateLivenessSession, ProcessLivenessResult, ResolveManualReview, CleanupReference;
    hide ConfirmByPhone, ConfirmReopenByPhone, VerifyOtp, RequestOtp, RequestReopenOtp, ReissueConsent, SyncConsent;
    hide Trace.Valid;
    Lengths(env, tr);
    after := Do(env, tr, DoConfirmReopenByPhone(phone, code));
  }

  // ---- Four wrong tries ----

  ghost function WrongTries(env: Env, tr: Trace, r: nat): nat
    requires |tr.states| == |tr.actions| + 1
  {
    AllMisses(env, tr, ForReopen, r, |tr.actions|)
  }

  lemma {:induction false} SameMisses(env: Env, tr: Trace, after: Trace, r: nat, n: nat)
    requires Quick(env, tr) && Quick(env, after) && Prolongs(tr, after) && n <= |tr.actions|
    requires |tr.states| == |tr.actions| + 1 && |after.states| == |after.actions| + 1
    ensures AllMisses(env, tr, ForReopen, r, n) == AllMisses(env, after, ForReopen, r, n)
  {
    hide Apply, Quick, EventOf;
    if n > 0 {
      SameMisses(env, tr, after, r, n - 1);
      assert tr.states[n - 1] == after.states[n - 1] && tr.actions[n - 1] == after.actions[n - 1];
    }
  }

  ghost predicate LeftoverOf(env: Env, s: State, wrong: string, right: string, r: nat, misses: nat) {
    Leftover(env, s, SELLER_PHONE, wrong, right, r, misses)
  }

  /** One more call, which is or is not a wrong try. */
  lemma TriesGrow(env: Env, tr: Trace, after: Trace, a: Action, r: nat)
    requires Quick(env, tr) && Quick(env, after) && Prolongs(tr, after) && after.actions == tr.actions + [a]
    requires |tr.states| == |tr.actions| + 1 && |after.states| == |after.actions| + 1
    ensures WrongTries(env, after, r) ==
      WrongTries(env, tr, r) + if EventOf(env, Last(tr), a, ForReopen, r) == Miss then 1 else 0
  {
    hide Apply, Quick, EventOf;
    SameMisses(env, tr, after, r, |tr.actions|);
    assert after.states[|tr.actions|] == Last(tr);
  }

  lemma MissIsEvent(env: Env, s: State, code: string, r: nat)
    requires ConfirmReopenByPhone(env, s, SELLER_PHONE, code).outcome == Rejected(BadCode(r))
    ensures EventOf(env, s, DoConfirmReopenByPhone(SELLER_PHONE, code), ForReopen, r) == Miss
  {
    hide ConfirmReopenByPhone;
  }

  lemma TriesWrong(env: Env, tr: Trace, wrong: string, right: string, r: nat, misses: nat) returns (after: Trace)
    requires Quick(env, tr) && LeftoverOf(env, Last(tr), wrong, right, r, misses) && misses < OTP_MAX_ATTEMPTS
    requires |tr.states| == |tr.actions| + 1
    ensures Quick(env, after) && LeftoverOf(env, Last(after), wrong, right, r, misses + 1)
    ensures |after.states| == |after.actions| + 1 && WrongTries(env, after, r) == WrongTries(env, tr, r) + 1
  {
    hide Apply, Leftover, ConfirmReopenByPhone, EventOf, Trace.Valid, AllMisses;
    WrongTry(env, Last(tr), SELLER_PHONE, wrong, right, r, misses);
    MissIsEvent(env, Last(tr), wrong, r);
    after := Confirms(env, tr, SELLER_PHONE, wrong);
    Lengths(env, after);
    TriesGrow(env, tr, after, DoConfirmReopenByPhone(SELLER_PHONE, wrong), r);
  }

  lemma TriesRight(env: Env, tr: Trace, wrong: string, right: string, r: nat, misses: nat) returns (after: Trace)
    requires Quick(env, tr) && LeftoverOf(env, Last(tr), wrong, right, r, misses) && misses < OTP_MAX_ATTEMPTS
    requires |tr.states| == |tr.actions| + 1
    ensures Quick(env, after) && LeftoverOf(env, Last(after), wrong, right, r, 0)
    ensures |after.states| == |after.actions| + 1 && WrongTries(env, after, r) >= WrongTries(env, tr, r)
  {
    hide Apply, Leftover, ConfirmReopenByPhone, EventOf, Trace.Valid, AllMisses;
    RightTry(env, Last(tr), SELLER_PHONE, wrong, right, r, misses);
    after := Confirms(env, tr, SELLER_PHONE, right);
    Lengths(env, after);
    TriesGrow(env, tr, after, DoConfirmReopenByPhone(SELLER_PHONE, right), r);
  }

  /** The seller's code is left over once the buyer entered hers and the request was cancelled. */
  lemma CancelLeaves(env: Env, s: State, wrong: string, right: string)
    requires FirstSealed(s) && env.otpHash(wrong) != env.otpHash(right)
    ensures LeftoverOf(env, BuyerIn(env, s, right).(status := Sealed), wrong, right, s.nextPk + 1, 0)
  {
    hide Sealable, HoldsReopenGrant;
    FindsParty(env.text, Seller());
    SellerIsOpen(env, s, right);
    NobodyYet(env, s, right);
    hide PartyByPhone, OpenRecords;
  }

  /** The buyer entered the code of a request that was cancelled then. */
  lemma CancelledRun(env: Env, code: string) returns (tr: Trace, s: State)
    ensures Quick(env, tr) && |tr.states| == |tr.actions| + 1 && FirstSealed(s)
    ensures Last(tr) == BuyerIn(env, s, code).(status := Sealed)
  {
    hide Apply, ConfirmReopenByPhone, PhoneFlow;
    hide Trace.Valid, Sealable, BuyerIn, Sent;
    tr := SealedRun(env);
    Lengths(env, tr);
    s := Last(tr);
    tr := AsksReopen(env, tr, code);
    BuyerEnters(env, s, code);
    TriedIsConfirm(env, Sent(env, s, code), BUYER_PHONE, BUYER_CODE);
    tr := Confirms(env, tr, BUYER_PHONE, BUYER_CODE);
    Lengths(env, tr);
    BuyerWaits(env, s, code);
    tr := Cancels(env, tr);
  }

  lemma BuyerWaits(env: Env, s: State, code: string)
    ensures BuyerIn(env, s, code).status == ReopenRequested
  {
  }

  lemma LeftoverIsSealed(env: Env, s: State, wrong: string, right: string, r: nat, misses: nat)
    requires LeftoverOf(env, s, wrong, right, r, misses)
    ensures s.status == Sealed && RequestReopen(s).state == Requested(s)
  {
  }

  lemma NoTry(env: Env, s: State, r: nat)
    ensures EventOf(env, s, DoRequestReopen, ForReopen, r) == Other
  {
    hide Apply;
  }

  lemma RequestsAgain(env: Env, tr: Trace, wrong: string, right: string, r: nat, misses: nat) returns (after: Trace)
    requires Quick(env, tr) && LeftoverOf(env, Last(tr), wrong, right, r, misses) && |tr.states| == |tr.actions| + 1
    ensures Quick(env, after) && |after.states| == |after.actions| + 1
    ensures Last(after) == RequestReopen(Last(tr)).state && WrongTries(env, after, r) == WrongTries(env, tr, r)
  {
    hide Apply, PhoneFlow, EventOf;
    hide Trace.Valid, Leftover, AllMisses;
    LeftoverIsSealed(env, Last(tr), wrong, right, r, misses);
    after := Requests(env, tr);
    NoTry(env, Last(tr), r);
    TriesGrow(env, tr, after, DoRequestReopen, r);
  }

  /** For any two codes that hash differently: a reopen code that was entered wrongly four times, no time
      passing, and is granted. */
  lemma ForgottenTriesRun(env: Env, wrong: string, right: string) returns (tr: Trace, r: nat)
    requires env.otpHash(wrong) != env.otpHash(right)
    ensures tr.Valid(env) && tr.Phone()
    ensures AllMisses(env, tr, ForReopen, r, |tr.actions|) >= 4
    ensures var s := tr.states[|tr.actions|]; r in s.records && s.records[r].granted
    ensures forall a <- tr.actions :: !a.Elapse?
  {
    hide Apply, Leftover, ConfirmReopenByPhone, EventOf, Trace.Valid, AllMisses, RequestReopen;
    var cancelled, s := CancelledRun(env, right);
    tr, r := cancelled, s.nextPk + 1;
    CancelLeaves(env, s, wrong, right);
    tr := TriesWrong(env, tr, wrong, right, r, 0);
    tr := TriesWrong(env, tr, wrong, right, r, 1);
    tr := TriesRight(env, tr, wrong, right, r, 2);
    tr := TriesWrong(env, tr, wrong, right, r, 0);
    tr := TriesWrong(env, tr, wrong, right, r, 1);
    ReopenThenRightTry(env, Last(tr), SELLER_PHONE, wrong, right, r, 2);
    var asked := RequestsAgain(env, tr, wrong, right, r, 2);
    tr := Confirms(env, asked, SELLER_PHONE, right);
    Lengths(env, tr);
    TriesGrow(env, asked, tr, DoConfirmReopenByPhone(SELLER_PHONE, right), r);
    QuickIsPhone(env, tr);
  }

  // ---- A reopen by one code ----

  /** ACTIVE again, sealable, with every record granted and no try counted. */
  ghost predicate Reopened(s: State) {
    && s.status == Active && s.now == 0 && s.reopenTries == map[] && Sealable(s) && s.terms.title == NEW_TITLE
    && AllHoldReopenGrants(s)
    && forall k :: k in s.records ==> k < s.nextPk && s.records[k].granted
  }

  lemma SellerIsRight(env: Env, s: State)
    requires Settled(s)
    ensures var a := BuyerIn(env, s, SELLER_CODE);
      Judge(env, a, a.reopenTries, ForReopen, SELLER_PHONE, SELLER_CODE) == Right(s.nextPk + 1)
  {
    hide Judge, OpenRecords;
    var a := BuyerIn(env, s, SELLER_CODE);
    SellerIsOpen(env, s, SELLER_CODE);
    JudgesCode(env, a, a.reopenTries, ForReopen, Seller(), s.nextPk + 1, SELLER_CODE);
  }

  lemma BothHold(env: Env, s: State)
    requires FirstSealed(s)
    ensures var rs := GrantRecord(BuyerIn(env, s, SELLER_CODE).records, s.nextPk + 1, 0);
      HoldsReopenGrant(rs, 0) && HoldsReopenGrant(rs, 1)
  {
    hide Sealable;
    var rs := GrantRecord(BuyerIn(env, s, SELLER_CODE).records, s.nextPk + 1, 0);
    assert rs[s.nextPk].granted && rs[s.nextPk + 1].granted;
  }

  lemma SellerEnters(env: Env, s: State)
    requires FirstSealed(s)
    ensures Reopened(Tried(env, BuyerIn(env, s, SELLER_CODE), SELLER_PHONE, SELLER_CODE))
  {
    hide Judge, Complete, HoldsReopenGrant, PayloadNow;
    SellerIsRight(env, s);
    BothHold(env, s);
    var a := BuyerIn(env, s, SELLER_CODE);
    var g := a.(reopenTries := a.reopenTries - {s.nextPk + 1}, records := GrantRecord(a.records, s.nextPk + 1, 0));
    assert AllPartiesConfirmedReopen(g);
    assert Tried(env, a, SELLER_PHONE, SELLER_CODE) == CompleteBilateralReopen(env, g).state;
  }

  lemma ReopenedRun(env: Env) returns (tr: Trace)
    ensures Quick(env, tr) && Reopened(Last(tr))
  {
    hide Apply, Trace.Valid, FirstSealed, Reopened, BuyerIn, Sent, Tried;
    tr := SealedRun(env);
    Lengths(env, tr);
    var s := Last(tr);
    FirstIsSettled(s);
    tr := AsksReopen(env, tr, SELLER_CODE);
    BuyerEnters(env, s, SELLER_CODE);
    TriedIsConfirm(env, Sent(env, s, SELLER_CODE), BUYER_PHONE, BUYER_CODE);
    tr := Confirms(env, tr, BUYER_PHONE, BUYER_CODE);
    SellerEnters(env, s);
    tr := Confirms(env, tr, SELLER_PHONE, SELLER_CODE);
  }

  lemma FirstIsSettled(s: State)
    requires FirstSealed(s)
    ensures Settled(s) && NoReopenGrants(s) && s.status == Sealed
  {
    hide Sealable;
  }

  lemma TriedIsConfirm(env: Env, s: State, phone: string, code: string)
    ensures Tried(env, s, phone, code) == ConfirmReopenByPhone(env, s, phone, code).state
  {
    hide ConfirmReopenByPhone;
  }

  lemma OneCodeReopens(env: Env, s: State)
    requires Settled(s) && AllHoldReopenGrants(s)
    ensures Tried(env, Sent(env, s, SELLER_CODE), BUYER_PHONE, BUYER_CODE).status == Active
  {
    var a := Sent(env, s, SELLER_CODE);
    BuyerIsRight(env, s, SELLER_CODE);
    forall p | p in a.parties ensures HoldsReopenGrant(a.records, p.pk) {
      var k :| k in s.records && s.records[k].party == p.pk && s.records[k].purpose == ForReopen
        && s.records[k].granted;
      assert a.records[k] == s.records[k];
    }
    hide Judge, HoldsReopenGrant, ConfirmReopenByPhone;
    OneCodeCompletes(env, a);
  }

  lemma OneCodeCompletes(env: Env, a: State)
    requires a.status == ReopenRequested && a.sealedAt.Some? && AllHoldReopenGrants(a)
    requires Judge(env, a, a.reopenTries, ForReopen, BUYER_PHONE, BUYER_CODE).Right?
    ensures Tried(env, a, BUYER_PHONE, BUYER_CODE).status == Active
  {
    hide Judge, HoldsReopenGrant, ConfirmReopenByPhone;
    RightCodeCompletesExactly(env, a, BUYER_PHONE, BUYER_CODE);
  }

  /** After a first reopen the agreement is sealed again at step k, and the buyer's code alone completes the
      next reopen. */
  lemma OneCodeRun(env: Env) returns (tr: Trace, k: nat)
    ensures tr.Valid(env) && tr.Phone() && |tr.actions| == k + 4 && SealsAt(env, tr, k) && ReopenedAt(tr, k + 3)
    ensures tr.actions[k..] == [DoSeal(true), DoRequestReopen, DoRequestReopenOtp([BUYER_CODE, SELLER_CODE]),
                                DoConfirmReopenByPhone(BUYER_PHONE, BUYER_CODE)]
  {
    hide Apply, Trace.Valid, Reopened, BuyerIn, Tried, PhoneFlow, Sealable;
    var first := ReopenedRun(env);
    Lengths(env, first);
    k := |first.actions|;
    ReopenedIsSealable(Last(first));
    var again := Seals(env, first);
    SettledAgain(env, Last(first));
    Lengths(env, again);
    var asked := AsksReopen(env, again, SELLER_CODE);
    Lengths(env, asked);
    OneCodeReopens(env, Last(again));
    tr := Confirms(env, asked, BUYER_PHONE, BUYER_CODE);
    Lengths(env, tr);
    QuickIsPhone(env, tr);
    assert tr.states[k + 3] == Last(asked) && tr.states[k] == Last(first);
  }

  lemma ReopenedIsSealable(s: State)
    requires Reopened(s)
    ensures Sealable(s) && s.status == Active && s.terms.title == NEW_TITLE
  {
    hide Sealable;
  }

  lemma SettledAgain(env: Env, s: State)
    requires Reopened(s)
    ensures Settled(SealedOf(env, s)) && AllHoldReopenGrants(SealedOf(env, s)) && SealedOf(env, s).status == Sealed
  {
    hide PayloadNow, Complete, HoldsReopenGrant;
  }

  // ---- A first reopen without the buyer ----

  lemma SellerAlone(env: Env, s: State)
    requires FirstSealed(s)
    ensures forall r ::
      !Enters(env, BuyerIn(env, s, SELLER_CODE), DoConfirmReopenByPhone(SELLER_PHONE, SELLER_CODE), r, 0)
  {
    hide Apply, Judge, Sealable;
    SellerIsRight(env, s);
  }

  /** The buyer entered her code once, for a request that was cancelled.  The next request, made when the
      agreement was never reopened, is completed by the seller's code alone. */
  lemma CancelledRequestRun(env: Env) returns (tr: Trace, q: nat)
    ensures tr.Valid(env) && tr.Phone() && |tr.actions| == q + 2 && Completes(env, tr, q, q + 1)
    ensures tr.actions[q..] == [DoRequestReopen, DoConfirmReopenByPhone(SELLER_PHONE, SELLER_CODE)]
    ensures tr.states[q].revisions == [] && tr.states[q].parties == Both()
    ensures forall k: nat :: q < k <= q + 1 ==> !ConfirmedBy(env, tr, k, Buyer().pk)
  {
    hide Apply, Trace.Valid, Reopened, BuyerIn, Tried, PhoneFlow, FirstSealed, Enters;
    var cancelled, s := CancelledRun(env, SELLER_CODE);
    q := |cancelled.actions|;
    BuyerInKeeps(env, s);
    SellerEnters(env, s);
    SellerAlone(env, s);
    var asked := Requests(env, cancelled);
    tr := Confirms(env, asked, SELLER_PHONE, SELLER_CODE);
    Lengths(env, tr);
    QuickIsPhone(env, tr);
    ReopenedIsSealable(Last(tr));
    assert tr.states[q] == Last(cancelled) && tr.states[q + 1] == Last(asked);
  }

  lemma BuyerInKeeps(env: Env, s: State)
    requires FirstSealed(s)
    ensures var a := BuyerIn(env, s, SELLER_CODE);
      a.status == ReopenRequested && a.revisions == [] && a.parties == Both()
  {
    hide Sealable;
  }

  // ---- A hash without a seal ----

  /** One side reopens a sealed agreement: it is ACTIVE, and its hash is still there. */
  lemma OneSidedRun(env: Env) returns (tr: Trace)
    ensures tr.Valid(env) && tr.Phone() && Last(tr).status == Active && Last(tr).sealHash != ""
  {
    hide Apply, Trace.Valid, PhoneFlow, FirstSealed;
    var sealed := SealedRun(env);
    Lengths(env, sealed);
    QuickIsPhone(env, sealed);
    FreshSeal(Last(sealed));
    OneSidedReopenExactly(env, sealed, |sealed.actions|);
    ReopenApplied(env, Last(sealed));
    OneSidedIsPhone();
    tr := Do(env, sealed, DoReopen);
    QuickIsPhone(env, tr);
    Lengths(env, tr);
  }

  lemma FreshSeal(s: State)
    requires FirstSealed(s)
    ensures s.status == Sealed && s.sealedAt == Some(0) && s.now == 0
  {
    hide Sealable;
  }

  lemma OneSidedIsPhone()
    ensures PhoneFlow(DoReopen)
  {
  }

  // ---- An upload confirmed after the seal ----

  function LatePhoto(): UploadRequest {
    RequestFor("vehicle_photo_4")
  }

  function WithSlot(s: State): State {
    s.(evidence := s.evidence + [SlotOf(s.nextPk, LatePhoto())], nextPk := s.nextPk + 1)
  }

  lemma SlotInActive(s: State)
    requires s.status == Active && s.parties == Both()
    ensures GenerateUploadUrl(s, LatePhoto()).state == WithSlot(s) && RoleFits(Both(), LatePhoto().kind)
  {
    PhotoFits("vehicle_photo_4");
    hide IsKind, RoleFits, IsIdentityEvidence;
  }

  lemma SlotStaysSealable(s: State)
    requires Sealable(s)
    ensures Sealable(WithSlot(s))
  {
    hide LatestFor, PhotoMinimumMet, HasConfirmedEvidence;
    UnconfirmedShowsNothing(s.evidence, SlotOf(s.nextPk, LatePhoto()));
  }

  lemma ReservesSlot(env: Env, tr: Trace) returns (after: Trace)
    requires Quick(env, tr) && Last(tr).status == Active && Last(tr).parties == Both()
    ensures Quick(env, after) && Prolongs(tr, after) && Last(after) == WithSlot(Last(tr))
  {
    hide SetParties, PatchParties, AddParty, UpdateTerms, GenerateUploadUrl, UploadEvidence, ConfirmUpload;
    hide VerifyIdentity, CreateLivenessSession, ProcessLivenessResult, ResolveManualReview, CleanupReference;
    hide ConfirmByPhone, ConfirmReopenByPhone, VerifyOtp, RequestOtp, RequestReopenOtp, ReissueConsent, SyncConsent;
    hide Trace.Valid;
    Lengths(env, tr);
    SlotInActive(Last(tr));
    after := Do(env, tr, DoGenerateUploadUrl(LatePhoto()));
  }

  function LateConfirmation(pk: nat): Action {
    DoConfirmUpload(ConfirmationOf(LatePhoto(), Some(pk)))
  }

  lemma ConfirmsLate(env: Env, tr: Trace, pk: nat) returns (after: Trace)
    requires Quick(env, tr)
    ensures Quick(env, after) && Prolongs(tr, after) && after.actions == tr.actions + [LateConfirmation(pk)]
    ensures Last(after) == ConfirmUpload(env, Last(tr), ConfirmationOf(LatePhoto(), Some(pk))).state
  {
    hide SetParties, PatchParties, AddParty, UpdateTerms, GenerateUploadUrl, UploadEvidence, ConfirmUpload;
    hide VerifyIdentity, CreateLivenessSession, ProcessLivenessResult, ResolveManualReview, CleanupReference;
    hide ConfirmByPhone, ConfirmReopenByPhone, VerifyOtp, RequestOtp, RequestReopenOtp, ReissueConsent, SyncConsent;
    hide Trace.Valid;
    Lengths(env, tr);
    after := Do(env, tr, LateConfirmation(pk));
  }

  /** The sealed agreement with the slot. */
  lemma SlotFillsLate(env: Env, s: State)
    requires s.parties == Both() && DistinctEvidencePks(WithSlot(s).evidence)
    ensures var z := SealedOf(env, WithSlot(s));
      var after := ConfirmUpload(env, z, ConfirmationOf(LatePhoto(), Some(s.nextPk))).state;
      && after.status == Sealed && !SameConfirmed(z.evidence, after.evidence)
  {
    hide ConfirmUpload, PayloadNow, RoleFits, Both;
    assert RoleFits(Both(), LatePhoto().kind) by { PhotoFits("vehicle_photo_4"); }
    var z := SealedOf(env, WithSlot(s));
    ConfirmFillsSlot(env, z, |s.evidence|, LatePhoto());
  }

  /** An upload slot is reserved, the agreement is sealed at step k, and the upload is confirmed then: the
      payload recomputed from the rows is not the one that was sealed. */
  lemma LateUploadRun(env: Env) returns (tr: Trace, k: nat, pk: nat)
    ensures tr.Valid(env) && tr.Phone() && |tr.actions| == k + 2 && HeldSince(env, tr, k, k + 2)
    ensures tr.actions[k..] == [DoSeal(true), LateConfirmation(pk)]
    ensures PayloadNow(env, tr.states[k + 2]) != PayloadNow(env, tr.states[k + 1])
  {
    hide Apply, Trace.Valid, PhoneFlow, Sealable, SealedOf, ConfirmUpload, PayloadNow, Renamed;
    var early, renamed, s := RenamedRun(env);
    RenamedIsSealable(env, s);
    RenamedIsActive(env, s);
    SealableParties(Renamed(env, s));
    SlotStaysSealable(Renamed(env, s));
    var slotted := ReservesSlot(env, renamed);
    Lengths(env, slotted);
    KeysDiffer(env, slotted);
    k, pk := |slotted.actions|, Renamed(env, s).nextPk;
    var sealed := Seals(env, slotted);
    Lengths(env, sealed);
    SlotFillsLate(env, Renamed(env, s));
    tr := ConfirmsLate(env, sealed, pk);
    Lengths(env, tr);
    QuickIsPhone(env, tr);
    assert tr.states[k] == Last(slotted) && tr.states[k + 1] == Last(sealed) && tr.states[k + 2] == Last(tr);
    SealedHere(env, tr, k);
    FrozenStepAt(env, tr, k + 1);
    PayloadTellsConfirmed(env, tr.states[k + 1], tr.states[k + 2]);
  }

  lemma SealableParties(s: State)
    requires Sealable(s)
    ensures s.parties == Both()
  {
  }

  lemma KeysDiffer(env: Env, tr: Trace)
    requires Quick(env, tr) && tr.states != []
    ensures DistinctEvidencePks(Last(tr).evidence)
  {
    hide Apply, PhoneFlow;
    AlwaysSound(env, tr, |tr.states| - 1);
  }

  lemma SealedHere(env: Env, tr: Trace, k: nat)
    requires tr.Valid(env) && SealsAt(env, tr, k)
    ensures tr.states[k + 1].status == Sealed
  {
    hide Apply;
    SealAt(env, tr, k);
  }

  // ---- A review that a second reading ends ----

  /** The card is read and the faces are alike enough for a person to look at, no more. */
  function DoubtfulReading(p: Party): Reading {
    Read([], true, p.idNumber, true, 99.0, 85.0)
  }

  lemma DoubtfulRow(t: Alphabet, p: Party, items: seq<Evidence>, v: Verification, now: int)
    requires p in Both() && FileIn(p, items, "front") && FileIn(p, items, "back") && FileIn(p, items, "selfie")
    ensures var row := VerifiedRow(t, p, items, v, DoubtfulReading(p), now);
      row.Some? && row.value.status == ManualReview
  {
    hide SlotItem, NormalizePin, IsPin;
    PinKept(t, p);
    assert ReadingCodes(p.idNumber, DoubtfulReading(p)) == ["face_match_manual_review"];
    hide Both;
  }

  lemma Doubts(env: Env, s: State, p: Party)
    requires s.parties == Both() && p in Both() && Complete(s.evidence)
    requires forall e <- s.evidence :: e.fileKey != ""
    ensures var s' := VerifyIdentity(env, s, p.pk, DoubtfulReading(p)).state;
      StatusIs(s'.verifications, p.pk, ManualReview) && s' == s.(verifications := s'.verifications)
  {
    hide Complete, VerifiedRow, PartyAt;
    Found(p);
    FilesIn(p, s.evidence);
    DoubtfulRow(env.text, p, s.evidence, EnsureCheck(env.text, s.verifications, p), s.now);
  }

  ghost function Doubted(env: Env, s: State): State {
    VerifyIdentity(env, s, 0, DoubtfulReading(Buyer())).state
  }

  lemma DoubtedThenRead(env: Env, s: State)
    requires s.parties == Both() && Complete(s.evidence) && forall e <- s.evidence :: e.fileKey != ""
    ensures StatusIs(Doubted(env, s).verifications, 0, ManualReview)
    ensures StatusIs(FirstChecked(env, Doubted(env, s)).verifications, 0, Verified)
    ensures Doubted(env, s).terms == FirstChecked(env, Doubted(env, s)).terms == s.terms
  {
    hide Complete, VerifyIdentity;
    Doubts(env, s, Buyer());
    Verifies(env, Doubted(env, s), Buyer());
  }

  lemma ReadingsApply(env: Env, s: State)
    ensures Apply(env, s, DoVerifyIdentity(0, DoubtfulReading(Buyer()))).state == Doubted(env, s)
    ensures Apply(env, s, DoVerifyIdentity(0, ReadingOf(Buyer()))).state == FirstChecked(env, s)
  {
    hide VerifyIdentity;
  }

  /** A party under review is VERIFIED without any review: its card is read once more, and passes. */
  lemma RereadRun(env: Env) returns (tr: Trace, n: nat)
    ensures tr.Valid(env) && tr.Phone() && |tr.actions| == n + 1 && tr.actions[n].DoVerifyIdentity?
    ensures StatusIs(tr.states[n].verifications, 0, ManualReview)
    ensures StatusIs(tr.states[n + 1].verifications, 0, Verified)
  {
    hide Apply, Early, Complete, AllUploaded, Doubted, FirstChecked, StatusIs;
    var uploaded := UploadedRun(env);
    LastIsEarly(env, uploaded);
    var s := Last(uploaded);
    DoubtedThenRead(env, s);
    ReadingsApply(env, s);
    ReadingsApply(env, Doubted(env, s));
    var doubted := DoEarly(env, uploaded, DoVerifyIdentity(0, DoubtfulReading(Buyer())), Doubted(env, s));
    tr := DoEarly(env, doubted, DoVerifyIdentity(0, ReadingOf(Buyer())), FirstChecked(env, Doubted(env, s)));
    n := |doubted.actions|;
    EarlyIsQuick(env, doubted);
    EarlyIsQuick(env, tr);
    Lengths(env, doubted);
    Lengths(env, tr);
    QuickIsPhone(env, tr);
    assert tr.states[n] == Last(doubted) && tr.states[n + 1] == Last(tr);
  }

  lemma EarlyIsQuick(env: Env, tr: Trace)
    requires Early(env, tr)
    ensures Quick(env, tr)
  {
    hide Apply, PhoneFlow, Trace.Valid;
  }
}
