/** One real agreement of the phone flow, from the draft to its second reopen: the runs behind what
    turned out false. */
module SampleRun {
  import opened Wrappers
  import opened Text
  import opened Lifecycle
  import opened Rows
  import opened Phones
  import opened PartyIdentity
  import opened Policies
  import opened Validators
  import opened IdentitySteps
  import opened PartySteps
  import opened EvidenceSteps
  import opened SealSteps
  import opened ConsentSteps
  import opened Protocol
  import opened Runs
  import opened SealTheorems
  import opened UploadTheorems

  // ---- Building a run ----

  /** A phone-flow run in which no time passes. */
  ghost predicate Quick(env: Env, tr: Trace) {
    tr.Valid(env) && forall a <- tr.actions :: PhoneFlow(a) && !a.Elapse?
  }

  lemma Do(env: Env, tr: Trace, a: Action) returns (after: Trace)
    requires Quick(env, tr) && PhoneFlow(a) && !a.Elapse?
    ensures Quick(env, after) && Prolongs(tr, after)
    ensures after.actions == tr.actions + [a] && after.states == tr.states + [Apply(env, Last(tr), a).state]
  {
    hide Apply, PhoneFlow, Trace.Valid;
    assert tr.states != [] by { Lengths(env, tr); }
    after := Extend(env, tr, a);
  }

  lemma Lengths(env: Env, tr: Trace)
    requires Quick(env, tr)
    ensures |tr.states| == |tr.actions| + 1
  {
    hide Apply;
  }

  /** Nothing is sealed or renamed yet. */
  ghost predicate Early(env: Env, tr: Trace) {
    && Quick(env, tr) && tr.states[0] == Drafted() && (forall a <- tr.actions :: !a.DoSeal?)
    && forall s <- tr.states :: s.terms.title == TITLE
  }

  lemma DoEarly(env: Env, tr: Trace, a: Action, s: State) returns (after: Trace)
    requires Early(env, tr) && PhoneFlow(a) && !a.Elapse? && !a.DoSeal?
    requires Apply(env, Last(tr), a).state == s && s.terms.title == TITLE
    ensures Early(env, after) && Prolongs(tr, after) && Last(after) == s
    ensures after.actions == tr.actions + [a]
  {
    hide Apply, PhoneFlow, Trace.Valid;
    Lengths(env, tr);
    after := Do(env, tr, a);
  }

  // ---- The parties ----

  const TITLE := "Toyota Vitz"
  const BUYER_PHONE := "+233201234567"
  const SELLER_PHONE := "+233207654321"
  const BUYER_PIN := "GHA-000000001-1"
  const SELLER_PIN := "GHA-000000002-2"

  function DraftTerms(): Terms {
    Terms(TITLE, "", USED_VEHICLE_SALE, "")
  }

  function Drafted(): State {
    State(0, 0, Draft, DraftTerms(), None, "", None, [], [], map[], map[], [], map[], map[])
  }

  function Buyer(): Party {
    Party(0, "buyer", "Ama", BUYER_PHONE, "ghana_card", BUYER_PIN)
  }

  function Seller(): Party {
    Party(1, "seller", "Kofi", SELLER_PHONE, "ghana_card", SELLER_PIN)
  }

  function Both(): seq<Party> {
    [Buyer(), Seller()]
  }

  function InputOf(p: Party): PartyInput {
    PartyInput(p.role, p.displayName, p.phone, p.idType, p.idNumber)
  }

  lemma PhoneIsKept(t: Alphabet, phone: string)
    requires IsE164(t, phone) && !IsLocalForm(phone[1..])
    ensures ToE164(t, phone) == phone && CompareKey(t, phone) == phone[1..]
  {
    E164Key(t, phone);
    assert phone == "+" + phone[1..];
    PlusFormFixed(t, phone[1..]);
  }

  lemma PhonesKept(t: Alphabet)
    ensures ToE164(t, BUYER_PHONE) == BUYER_PHONE && CompareKey(t, BUYER_PHONE) == BUYER_PHONE[1..]
    ensures ToE164(t, SELLER_PHONE) == SELLER_PHONE && CompareKey(t, SELLER_PHONE) == SELLER_PHONE[1..]
    ensures BUYER_PHONE[1..] != SELLER_PHONE[1..]
  {
    PhoneIsKept(t, BUYER_PHONE);
    PhoneIsKept(t, SELLER_PHONE);
    assert BUYER_PHONE[1..][5] != SELLER_PHONE[1..][5];
  }

  lemma CardsKept(t: Alphabet)
    ensures IsPin(t, BUYER_PIN) && NormalizePin(t, BUYER_PIN) == BUYER_PIN
    ensures IsPin(t, SELLER_PIN) && NormalizePin(t, SELLER_PIN) == SELLER_PIN
    ensures Strip(t, "ghana_card") == "ghana_card" && Strip(t, BUYER_PIN) == BUYER_PIN
      && Strip(t, SELLER_PIN) == SELLER_PIN
  {
    assert BUYER_PIN[..4] == "GHA-" && SELLER_PIN[..4] == "GHA-";
    PinIsNormal(t, BUYER_PIN);
    PinIsNormal(t, SELLER_PIN);
    StripOfTrimmed(t, "ghana_card");
    StripOfTrimmed(t, BUYER_PIN);
    StripOfTrimmed(t, SELLER_PIN);
  }

  function Inputs(): seq<PartyInput> {
    [InputOf(Buyer()), InputOf(Seller())]
  }

  lemma InputFits(t: Alphabet, p: Party)
    requires p in Both()
    ensures PhoneKeyOf(t, p.phone) == p.phone[1..] && ToE164(t, p.phone) == p.phone
    ensures IdentityFault(t, InputOf(p)).None? && IdNumberOf(t, InputOf(p)) == p.idNumber
    ensures NormalizePin(t, p.idNumber) == p.idNumber && IsPin(t, p.idNumber)
  {
    hide Strip, IsPin, ToE164, CompareKey, Upper;
    PhonesKept(t);
    CardsKept(t);
    hide NormalizePin;
  }

  lemma PhonesDiffer(t: Alphabet)
    ensures DistinctPhones(t, Inputs())
    ensures (set input | input in Inputs() :: PhoneKeyOf(t, input.phone)) == {BUYER_PHONE[1..], SELLER_PHONE[1..]}
  {
    hide PhoneKeyOf, IdentityFault, IdNumberOf, NormalizePin, IsPin, ToE164;
    InputFits(t, Buyer());
    InputFits(t, Seller());
    PhonesKept(t);
    assert Inputs()[0] in Inputs() && Inputs()[1] in Inputs();
  }

  lemma PinsDiffer(t: Alphabet)
    ensures FirstIdentityFault(t, Inputs()).None? && UniquePins(t, Inputs())
  {
    hide PhoneKeyOf, IdentityFault, IdNumberOf, NormalizePin, IsPin, ToE164;
    InputFits(t, Buyer());
    InputFits(t, Seller());
    assert BUYER_PIN[14] != SELLER_PIN[14];
  }

  lemma InputsFit(t: Alphabet)
    ensures SetFault(t, {BUYER_PHONE[1..]}, Inputs()).None?
  {
    hide PhoneKeyOf, FirstIdentityFault, DistinctPhones, UniquePins;
    PhonesDiffer(t);
    PinsDiffer(t);
    assert BUYER_PHONE[1..] in {BUYER_PHONE[1..], SELLER_PHONE[1..]};
    assert DistinctRoles(Inputs());
  }

  function FreshChecks(t: Alphabet): map<nat, Verification> {
    map[0 := FreshCheck(t, Buyer()), 1 := FreshCheck(t, Seller())]
  }

  function WithParties(t: Alphabet): State {
    Drafted().(parties := Both(), nextPk := 2, verifications := FreshChecks(t))
  }

  lemma PartiesSet(env: Env)
    ensures SetParties(env, Drafted(), {BUYER_PHONE[1..]}, Inputs()).state == WithParties(env.text)
  {
    var t := env.text;
    hide SetFault, IdNumberOf, NewChecks, FreshChecks, NormalizePin, IsPin, ToE164;
    InputsFit(t);
    InputFits(t, Buyer());
    InputFits(t, Seller());
    assert NewParties(t, 0, Inputs()) == Both();
    ChecksStart(t);
  }

  lemma ChecksStart(t: Alphabet)
    ensures NewChecks(t, Both()) == FreshChecks(t)
  {
    hide FreshCheck;
    assert CardHolders(Both()) == {0, 1} by {
      assert Both()[0] in Both() && Both()[1] in Both();
    }
    assert PartyAt(Both(), 0) == Some(Buyer());
    assert Both()[1..] == [Seller()];
    assert PartyAt(Both(), 1) == Some(Seller());
  }

  // ---- The uploads ----

  function RequestFor(kind: string): UploadRequest {
    UploadRequest(kind, "image/jpeg", 1000, "0", "agreements/" + kind + ".jpg", true)
  }

  /** The state after a file of this kind was uploaded and confirmed. */
  function Uploaded(s: State, kind: string): State {
    s.(evidence := s.evidence + [ItemOf(s, RequestFor(kind))], nextPk := s.nextPk + 1)
  }

  /** An unfinished draft of the two parties, every upload of it confirmed and no check begun. */
  ghost predicate Filling(env: Env, s: State) {
    && s.status == Draft && s.parties == Both() && s.verifications == FreshChecks(env.text)
    && forall e <- s.evidence :: e.confirmed && e.fileKey != ""
  }

  predicate Uploadable(kind: string) {
    IsKind(kind) && RoleFits(Both(), kind)
  }

  lemma FreshStaysFresh(t: Alphabet, items: seq<Evidence>, p: Party)
    requires p in Both()
    ensures AfterUpload(t, items, FreshChecks(t), p) == FreshChecks(t)
  {
    hide CardsReady, SlotConfirmed, NormalizePin;
    assert ResetCheck(t, FreshCheck(t, p), p) == FreshCheck(t, p);
  }

  lemma SlotReserved(env: Env, s: State, kind: string)
    requires Filling(env, s) && Uploadable(kind)
    ensures var reply := GenerateUploadUrl(s, RequestFor(kind));
      && reply.outcome == Done
      && reply.state == Uploaded(s, kind).(
           evidence := s.evidence + [ItemOf(s, RequestFor(kind)).(confirmed := false)])
  {
    hide IsKind, RoleFits, IsIdentityEvidence;
  }

  lemma ConfirmKeepsFresh(env: Env, s: State, c: Confirmation)
    requires s.parties == Both() && s.verifications == FreshChecks(env.text)
    ensures ConfirmUpload(env, s, c).state.verifications == s.verifications
  {
    hide RoleFits, IsIdentityEvidence, AfterUpload, RolePrefix, FreshChecks, MatchesRequest, MatchesStored;
    var items := ConfirmUpload(env, s, c).state.evidence;
    FreshStaysFresh(env.text, items, Buyer());
    FreshStaysFresh(env.text, items, Seller());
  }

  lemma SlotFilled(env: Env, s: State, kind: string)
    requires Filling(env, s) && Uploadable(kind)
    ensures var s1 := GenerateUploadUrl(s, RequestFor(kind)).state;
      ConfirmUpload(env, s1, ConfirmationOf(RequestFor(kind), None)).state == Uploaded(s, kind)
  {
    hide Uploadable, FreshChecks, GenerateUploadUrl, ConfirmUpload;
    SlotReserved(env, s, kind);
    SlotThenConfirmExactly(env, s, RequestFor(kind));
    ConfirmKeepsFresh(env, GenerateUploadUrl(s, RequestFor(kind)).state, ConfirmationOf(RequestFor(kind), None));
  }

  function AllUploaded(s: State, kinds: seq<string>): State {
    if kinds == [] then s else Uploaded(AllUploaded(s, kinds[..|kinds| - 1]), kinds[|kinds| - 1])
  }

  lemma Starts(env: Env) returns (tr: Trace)
    ensures Early(env, tr) && Last(tr) == WithParties(env.text)
  {
    tr := Trace([Drafted()], []);
    hide PatchParties, AddParty, UpdateTerms, GenerateUploadUrl, UploadEvidence, ConfirmUpload;
    hide VerifyIdentity, CreateLivenessSession, ProcessLivenessResult, ResolveManualReview, CleanupReference;
    hide ConfirmByPhone, ConfirmReopenByPhone, VerifyOtp, RequestOtp, RequestReopenOtp, ReissueConsent, SyncConsent;
    hide SetParties, FreshChecks, Trace.Valid;
    assert tr.Valid(env) by { NoSteps(env, tr); }
    PartiesSet(env);
    tr := DoEarly(env, tr, DoSetParties({BUYER_PHONE[1..]}, Inputs()), WithParties(env.text));
  }

  lemma NoSteps(env: Env, tr: Trace)
    requires tr.actions == [] && |tr.states| == 1 && IsDraft(tr.states[0])
    ensures tr.Valid(env)
  {
    hide Apply;
  }

  lemma UploadOne(env: Env, tr: Trace, kind: string) returns (after: Trace)
    requires Early(env, tr) && Filling(env, Last(tr)) && Uploadable(kind)
    ensures Early(env, after) && Last(after) == Uploaded(Last(tr), kind)
  {
    hide SetParties, PatchParties, AddParty, UpdateTerms, GenerateUploadUrl, UploadEvidence, ConfirmUpload;
    hide VerifyIdentity, CreateLivenessSession, ProcessLivenessResult, ResolveManualReview, CleanupReference;
    hide ConfirmByPhone, ConfirmReopenByPhone, VerifyOtp, RequestOtp, RequestReopenOtp, ReissueConsent, SyncConsent;
    hide FreshChecks, Early, Uploadable, ItemOf;
    LastIsEarly(env, tr);
    var s, r := Last(tr), RequestFor(kind);
    SlotFilled(env, s, kind);
    after := DoEarly(env, tr, DoGenerateUploadUrl(r), GenerateUploadUrl(s, r).state);
    after := DoEarly(env, after, DoConfirmUpload(ConfirmationOf(r, None)), Uploaded(s, kind));
  }

  lemma LastIsEarly(env: Env, tr: Trace)
    requires Early(env, tr)
    ensures tr.states != [] && Last(tr).terms.title == TITLE
  {
    hide Apply;
    assert Last(tr) in tr.states;
  }

  lemma {:induction false} UploadEach(env: Env, tr: Trace, kinds: seq<string>) returns (after: Trace)
    requires Early(env, tr) && Filling(env, Last(tr)) && forall kind <- kinds :: Uploadable(kind)
    ensures Early(env, after) && Last(after) == AllUploaded(Last(tr), kinds) && Filling(env, Last(after))
  {
    hide Apply, Early, Uploadable, FreshChecks;
    LastIsEarly(env, tr);
    after := tr;
    if kinds != [] {
      var front := kinds[..|kinds| - 1];
      after := UploadEach(env, tr, front);
      LastIsEarly(env, after);
      after := UploadOne(env, after, kinds[|kinds| - 1]);
      LastIsEarly(env, after);
    }
  }

  function CardKind(role: string, side: string): string
    requires role in {"buyer", "seller"} && side in {"front", "back", "selfie"}
  {
    IdentityEvidenceType(role, side).value
  }

  function Kinds(): seq<string> {
    [CardKind("buyer", "front"), CardKind("buyer", "back"), CardKind("buyer", "selfie"),
     CardKind("seller", "front"), CardKind("seller", "back"), CardKind("seller", "selfie"),
     "vehicle_photo_1", "vehicle_photo_2", "vehicle_photo_3"]
  }

  lemma CardKindIsKind(role: string, side: string)
    requires role in {"buyer", "seller"} && side in {"front", "back", "selfie"}
    ensures IsKind(CardKind(role, side))
  {
    var kind := CardKind(role, side);
    assert forall c <- role :: IsKindChar(c);
    assert forall c <- side :: IsKindChar(c);
    assert forall c <- "_selfie" :: IsKindChar(c);
    assert forall c <- "_ghana_card_" :: IsKindChar(c);
    assert forall c <- kind :: IsKindChar(c);
  }

  lemma CardFits(role: string, side: string)
    requires role in {"buyer", "seller"} && side in {"front", "back", "selfie"}
    ensures var kind := CardKind(role, side); Uploadable(kind) && ParseEvidenceType(kind) == Some((role, side))
  {
    hide ParseEvidenceType, IsKind;
    CardKindIsKind(role, side);
    ParseInvertsFormat(CardKind(role, side), role, side);
    assert Both()[0] in Both() && Both()[1] in Both();
  }

  lemma PhotoFits(kind: string)
    requires kind in {"vehicle_photo_1", "vehicle_photo_2", "vehicle_photo_3", "vehicle_photo_4"}
    ensures Uploadable(kind) && "vehicle_photo" <= kind
  {
    hide ParseEvidenceType, IsKind;
    PhotoIsKind(kind);
    assert kind[|kind| - 1] in {'1', '2', '3', '4'};
    NumberedIsNoCard(kind);
  }

  lemma PhotoIsKind(kind: string)
    requires kind in {"vehicle_photo_1", "vehicle_photo_2", "vehicle_photo_3", "vehicle_photo_4"}
    ensures IsKind(kind)
  {
    assert forall c <- kind :: IsKindChar(c);
  }

  lemma NumberedIsNoCard(kind: string)
    requires kind != "" && kind[|kind| - 1] in {'1', '2', '3', '4'}
    ensures ParseEvidenceType(kind).None?
  {
    var f, b, s := "_ghana_card_front", "_ghana_card_back", "_selfie";
    assert f[|f| - 1] == 't' && b[|b| - 1] == 'k' && s[|s| - 1] == 'e';
  }

  lemma KindsFit()
    ensures forall kind <- Kinds() :: Uploadable(kind)
  {
    hide Uploadable, ParseEvidenceType, CardKind;
    forall role, side | role in {"buyer", "seller"} && side in {"front", "back", "selfie"}
      ensures Uploadable(CardKind(role, side))
    {
      CardFits(role, side);
    }
    PhotoFits("vehicle_photo_1");
    PhotoFits("vehicle_photo_2");
    PhotoFits("vehicle_photo_3");
  }

  lemma {:induction false} WhatWasUploaded(s: State, kinds: seq<string>)
    ensures var after := AllUploaded(s, kinds);
      && after == s.(evidence := after.evidence, nextPk := s.nextPk + |kinds|)
      && |after.evidence| == |s.evidence| + |kinds|
      && forall i :: 0 <= i < |kinds| ==>
           after.evidence[|s.evidence| + i].kind == kinds[i] && after.evidence[|s.evidence| + i].confirmed
  {
    if kinds != [] {
      WhatWasUploaded(s, kinds[..|kinds| - 1]);
    }
  }

  /** Cards and face of both parties and three photos are there. */
  ghost predicate Complete(items: seq<Evidence>) {
    && HasConfirmedEvidence(items) && PhotoMinimumMet(USED_VEHICLE_SALE, items)
    && forall role, side :: role in {"buyer", "seller"} && side in {"front", "back", "selfie"} ==>
         LatestFor(items, role, side).Some?
  }

  lemma ThreePhotos(items: seq<Evidence>)
    requires |items| >= 3
    requires forall i :: |items| - 3 <= i < |items| ==> items[i].confirmed && "vehicle_photo" <= items[i].kind
    ensures CountConfirmed(items, "vehicle_photo") >= 3
  {
    var n := |items|;
    assert items[..n - 1][..n - 2] == items[..n - 2] && items[..n - 2][..n - 3] == items[..n - 3];
    assert CountConfirmed(items[..n - 2], "vehicle_photo") >= 1;
    assert CountConfirmed(items[..n - 1], "vehicle_photo") >= 2;
  }

  lemma SlotIsShown(items: seq<Evidence>, i: nat, role: string, side: string)
    requires role in {"buyer", "seller"} && side in {"front", "back", "selfie"}
    requires i < |items| && items[i].confirmed && items[i].kind == CardKind(role, side)
    ensures LatestFor(items, role, side).Some?
  {
    CardFits(role, side);
    hide ParseEvidenceType, CardKind, Uploadable;
    assert items[i] in items && FillsSlot(items[i], role, side);
  }

  lemma ItemAt(t: Alphabet, i: nat)
    requires i < 9
    ensures var items := AllUploaded(WithParties(t), Kinds()).evidence;
      |items| == 9 && items[i].kind == Kinds()[i] && items[i].confirmed
  {
    hide AllUploaded, CardKind;
    WhatWasUploaded(WithParties(t), Kinds());
    var items := AllUploaded(WithParties(t), Kinds()).evidence;
    assert items[0 + i].kind == Kinds()[i] && items[0 + i].confirmed;
  }

  lemma ShownAt(t: Alphabet, i: nat, role: string, side: string)
    requires role in {"buyer", "seller"} && side in {"front", "back", "selfie"}
    requires i < 9 && Kinds()[i] == CardKind(role, side)
    ensures LatestFor(AllUploaded(WithParties(t), Kinds()).evidence, role, side).Some?
  {
    hide AllUploaded, CardKind, LatestFor;
    ItemAt(t, i);
    SlotIsShown(AllUploaded(WithParties(t), Kinds()).evidence, i, role, side);
  }

  lemma CardsShown(t: Alphabet)
    ensures var items := AllUploaded(WithParties(t), Kinds()).evidence;
      forall role, side :: role in {"buyer", "seller"} && side in {"front", "back", "selfie"} ==>
        LatestFor(items, role, side).Some?
  {
    hide AllUploaded, CardKind, LatestFor, WithParties;
    ShownAt(t, 0, "buyer", "front");
    ShownAt(t, 1, "buyer", "back");
    ShownAt(t, 2, "buyer", "selfie");
    ShownAt(t, 3, "seller", "front");
    ShownAt(t, 4, "seller", "back");
    ShownAt(t, 5, "seller", "selfie");
  }

  lemma PhotosShown(t: Alphabet)
    ensures CountConfirmed(AllUploaded(WithParties(t), Kinds()).evidence, "vehicle_photo") >= 3
  {
    hide AllUploaded, CardKind, CountConfirmed, Uploadable, WithParties;
    ItemAt(t, 6);
    ItemAt(t, 7);
    ItemAt(t, 8);
    PhotoFits("vehicle_photo_1");
    PhotoFits("vehicle_photo_2");
    PhotoFits("vehicle_photo_3");
    ThreePhotos(AllUploaded(WithParties(t), Kinds()).evidence);
  }

  lemma UploadsComplete(t: Alphabet)
    ensures Complete(AllUploaded(WithParties(t), Kinds()).evidence)
  {
    hide AllUploaded, Kinds, LatestFor, CountConfirmed, WithParties;
    var items := AllUploaded(WithParties(t), Kinds()).evidence;
    CardsShown(t);
    PhotosShown(t);
    ItemAt(t, 0);
    assert items[0] in items && items[0].confirmed;
  }

  lemma UploadedRun(env: Env) returns (tr: Trace)
    ensures Early(env, tr) && Last(tr) == AllUploaded(WithParties(env.text), Kinds())
    ensures Filling(env, Last(tr)) && Complete(Last(tr).evidence)
    ensures Last(tr) == WithParties(env.text).(evidence := Last(tr).evidence, nextPk := 11)
  {
    hide Early, Uploadable, FreshChecks, AllUploaded, Complete, CardKind;
    var start := Starts(env);
    assert Filling(env, WithParties(env.text));
    LastIsEarly(env, start);
    KindsFit();
    tr := UploadEach(env, start, Kinds());
    UploadsComplete(env.text);
    WhatWasUploaded(WithParties(env.text), Kinds());
  }

  // ---- The checks ----

  function ReadingOf(p: Party): Reading {
    Read([], true, p.idNumber, true, 99.0, 95.0)
  }

  predicate FileIn(p: Party, items: seq<Evidence>, side: string) {
    SlotItem(p, items, side).Some? && SlotItem(p, items, side).value.fileKey != ""
  }

  lemma FilesIn(p: Party, items: seq<Evidence>)
    requires p in Both() && Complete(items) && forall e <- items :: e.fileKey != ""
    ensures FileIn(p, items, "front") && FileIn(p, items, "back") && FileIn(p, items, "selfie")
  {
    hide LatestFor, PhotoMinimumMet, HasConfirmedEvidence;
  }

  lemma PinKept(t: Alphabet, p: Party)
    requires p in Both()
    ensures NormalizePin(t, p.idNumber) == p.idNumber && IsValidPin(t, p.idNumber)
  {
    hide NormalizePin, IsPin, IdentityFault, IdNumberOf, PhoneKeyOf, ToE164;
    InputFits(t, p);
  }

  lemma RowVerified(t: Alphabet, p: Party, items: seq<Evidence>, v: Verification, now: int)
    requires p in Both() && FileIn(p, items, "front") && FileIn(p, items, "back") && FileIn(p, items, "selfie")
    ensures var row := VerifiedRow(t, p, items, v, ReadingOf(p), now); row.Some? && row.value.status == Verified
  {
    hide SlotItem, CardResult, ReadingOf, NormalizePin, IsPin;
    ReadingPasses(p);
    PinKept(t, p);
    hide Both;
  }

  lemma ReadingPasses(p: Party)
    requires p in Both()
    ensures CardResult(p.idNumber, true, ReadingOf(p)) == Some(CardOutcome(Verified, [], p.idNumber))
  {
    assert ReadingCodes(p.idNumber, ReadingOf(p)) == [];
  }

  lemma Found(p: Party)
    requires p in Both()
    ensures PartyAt(Both(), p.pk) == Some(p)
  {
    assert Both()[1..] == [Seller()];
  }

  lemma Verifies(env: Env, s: State, p: Party)
    requires s.parties == Both() && p in Both() && Complete(s.evidence)
    requires forall e <- s.evidence :: e.fileKey != ""
    ensures var checks := VerifyIdentity(env, s, p.pk, ReadingOf(p)).state.verifications;
      && p.pk in checks && checks[p.pk].status == Verified
      && checks - {p.pk} == s.verifications - {p.pk}
  {
    hide Complete, VerifiedRow, PartyAt;
    Found(p);
    FilesIn(p, s.evidence);
    RowVerified(env.text, p, s.evidence, EnsureCheck(env.text, s.verifications, p), s.now);
  }

  /** All that validation asks for, but for the title. */
  ghost predicate Sealable(s: State) {
    && s.parties == Both() && s.terms.scenario == USED_VEHICLE_SALE && Complete(s.evidence)
    && forall p <- Both() :: p.pk in s.verifications && s.verifications[p.pk].status == Verified
  }

  lemma BothCardsValid(t: Alphabet)
    ensures CardsValid(t, Both())
  {
    hide NormalizePin, IsPin;
    PinKept(t, Buyer());
    PinKept(t, Seller());
    assert BUYER_PIN[14] != SELLER_PIN[14];
  }

  lemma BothShown(s: State)
    requires Sealable(s)
    ensures forall p <- Both() :: IdentityShown(p, s.evidence, s.verifications)
  {
    hide LatestFor, PhotoMinimumMet, HasConfirmedEvidence;
  }

  lemma BothRoles()
    ensures PartyRoles(Both()) == {"buyer", "seller"}
  {
    assert Both()[0] in Both() && Both()[1] in Both();
  }

  lemma SealableIsValid(env: Env, s: State)
    requires Sealable(s) && !Blank(env.text, s.terms.title)
    ensures ValidNow(env, s)
  {
    hide CardsValid, LatestFor, PhotoMinimumMet, HasConfirmedEvidence, Strip, IdentityShown, PartyRoles, Both;
    BothCardsValid(env.text);
    BothShown(s);
    BothRoles();
    StripOfTrimmed(env.text, USED_VEHICLE_SALE);
    assert |s.parties| == 2 by { TwoParties(); }
  }

  lemma TwoParties()
    ensures |Both()| == 2
  {
  }

  /** Both cards are checked; the agreement is as drafted, its records empty. */
  ghost predicate ReadyToConsent(s: State) {
    && Sealable(s) && s.nextPk == 11
    && s == WithPartiesAs(s)
  }

  function WithPartiesAs(s: State): State {
    Drafted().(parties := Both(), nextPk := 11, evidence := s.evidence, verifications := s.verifications)
  }

  ghost function FirstChecked(env: Env, s: State): State {
    VerifyIdentity(env, s, 0, ReadingOf(Buyer())).state
  }

  ghost function BothChecked(env: Env, s: State): State {
    VerifyIdentity(env, FirstChecked(env, s), 1, ReadingOf(Seller())).state
  }

  lemma ChecksPass(env: Env, s: State)
    requires s == WithPartiesAs(s) && Complete(s.evidence) && forall e <- s.evidence :: e.fileKey != ""
    ensures FirstChecked(env, s).terms == s.terms && ReadyToConsent(BothChecked(env, s))
  {
    hide Complete, VerifyIdentity, ReadingOf;
    Verifies(env, s, Buyer());
    var s1, s2 := FirstChecked(env, s), BothChecked(env, s);
    assert s1 == s.(verifications := s1.verifications);
    Verifies(env, s1, Seller());
    assert 0 in s1.verifications - {1} && (s1.verifications - {1})[0] == s1.verifications[0];
    assert s2.verifications[0] == s1.verifications[0];
  }

  lemma CheckedRun(env: Env) returns (tr: Trace)
    ensures Early(env, tr) && ReadyToConsent(Last(tr))
  {
    hide SetParties, PatchParties, AddParty, UpdateTerms, GenerateUploadUrl, UploadEvidence, ConfirmUpload;
    hide VerifyIdentity, CreateLivenessSession, ProcessLivenessResult, ResolveManualReview, CleanupReference;
    hide ConfirmByPhone, ConfirmReopenByPhone, VerifyOtp, RequestOtp, RequestReopenOtp, ReissueConsent, SyncConsent;
    hide Early, Complete, AllUploaded, ReadyToConsent, ReadingOf;
    tr := UploadedRun(env);
    LastIsEarly(env, tr);
    var s := Last(tr);
    ChecksPass(env, s);
    tr := DoEarly(env, tr, DoVerifyIdentity(0, ReadingOf(Buyer())), FirstChecked(env, s));
    assert BothChecked(env, s).terms == s.terms;
    tr := DoEarly(env, tr, DoVerifyIdentity(1, ReadingOf(Seller())), BothChecked(env, s));
  }

  // ---- Codes ----

  const BUYER_CODE := "111111"
  const SELLER_CODE := "222222"

  function Issued(env: Env, pk: nat, purpose: Purpose, code: string): Record {
    Record(pk, purpose, env.otpHash(code), false, None, 0, OTP_LIFE_SECONDS)
  }

  function Granted(r: Record): Record {
    r.(granted := true, grantedAt := Some(0))
  }

  lemma TwoIssued(env: Env, s: State, purpose: Purpose, a: string, b: string)
    requires s.parties == Both() && s.now == 0
    ensures IssueCodes(env, s, purpose, [a, b]) == s.(
      records := s.records[s.nextPk := Issued(env, 0, purpose, a)][s.nextPk + 1 := Issued(env, 1, purpose, b)],
      nextPk := s.nextPk + 2)
  {
    var pks := NewPks(s.nextPk, 2);
    assert pks == {s.nextPk, s.nextPk + 1};
  }

  lemma FindsParty(t: Alphabet, p: Party)
    requires p in Both()
    ensures PartyByPhone(t, Both(), p.phone) == Some(p)
  {
    PhonesKept(t);
    hide CompareKey;
    assert Both()[1..] == [Seller()];
  }

  lemma JudgesCode(env: Env, s: State, tries: map<nat, Counter>, purpose: Purpose, p: Party, r: nat, code: string)
    requires s.parties == Both() && p in Both() && r in s.records
    requires OpenRecords(s.records, p.pk, purpose) == {r} && LiveCount(tries, r, s.now) < OTP_MAX_ATTEMPTS
    ensures Judge(env, s, tries, purpose, p.phone, code) == if CodeFits(env, s, r, code) then Right(r) else Wrong(r)
  {
    FindsParty(env.text, p);
    hide PartyByPhone, Both, CodeFits;
    assert OpenRecords(s.records, p.pk, purpose) == {r} && r in {r};
  }

  // ---- The consent ----

  function Asked(env: Env, s: State): State {
    s.(status := PendingConsent, nextPk := 13,
       records := map[11 := Issued(env, 0, ForConsent, BUYER_CODE), 12 := Issued(env, 1, ForConsent, SELLER_CODE)])
  }

  function HalfConsented(env: Env, s: State): State {
    s.(status := PendingConsent, nextPk := 13,
       records := map[11 := Granted(Issued(env, 0, ForConsent, BUYER_CODE)),
                      12 := Issued(env, 1, ForConsent, SELLER_CODE)])
  }

  function Consented(env: Env, s: State): State {
    s.(status := Active, nextPk := 13,
       records := map[11 := Granted(Issued(env, 0, ForConsent, BUYER_CODE)),
                      12 := Granted(Issued(env, 1, ForConsent, SELLER_CODE))])
  }

  lemma Asks(env: Env, s: State)
    requires ReadyToConsent(s)
    ensures RequestOtp(env, s, [BUYER_CODE, SELLER_CODE]).state == Asked(env, s)
  {
    hide Sealable, IssueCodes, Issued;
    var cleared := s.(status := PendingConsent, records := DropConsent(s.records));
    assert cleared.records == map[];
    TwoIssued(env, cleared, ForConsent, BUYER_CODE, SELLER_CODE);
  }

  lemma BuyerJudged(env: Env, s: State)
    requires ReadyToConsent(s)
    ensures var a := Asked(env, s); Judge(env, a, a.consentTries, ForConsent, BUYER_PHONE, BUYER_CODE) == Right(11)
  {
    hide Sealable, Judge;
    var a := Asked(env, s);
    assert OpenRecords(a.records, 0, ForConsent) == {11};
    JudgesCode(env, a, a.consentTries, ForConsent, Buyer(), 11, BUYER_CODE);
  }

  lemma SellerJudged(env: Env, s: State)
    requires ReadyToConsent(s)
    ensures var a := HalfConsented(env, s);
      Judge(env, a, a.consentTries, ForConsent, SELLER_PHONE, SELLER_CODE) == Right(12)
  {
    hide Sealable, Judge;
    var a := HalfConsented(env, s);
    assert OpenRecords(a.records, 1, ForConsent) == {12};
    JudgesCode(env, a, a.consentTries, ForConsent, Seller(), 12, SELLER_CODE);
  }

  lemma WhoConsented(env: Env, s: State)
    requires s.parties == Both()
    ensures !AllPartiesConsented(HalfConsented(env, s)) && AllPartiesConsented(Consented(env, s))
  {
    assert !PartyConsented(HalfConsented(env, s).records, 1);
    assert Both()[1] in Both();
    var rs := Consented(env, s).records;
    assert IsLatest(rs, 11) && IsLatest(rs, 12);
    assert PartyConsented(rs, 0) && PartyConsented(rs, 1);
  }

  lemma BuyerConsents(env: Env, s: State)
    requires ReadyToConsent(s)
    ensures ConfirmByPhone(env, Asked(env, s), BUYER_PHONE, BUYER_CODE).state == HalfConsented(env, s)
  {
    hide Sealable, Judge, EveryoneConsented, Issued;
    BuyerJudged(env, s);
    WhoConsented(env, s);
    assert GrantRecord(Asked(env, s).records, 11, 0) == HalfConsented(env, s).records;
  }

  lemma SellerConsents(env: Env, s: State)
    requires ReadyToConsent(s)
    ensures ConfirmByPhone(env, HalfConsented(env, s), SELLER_PHONE, SELLER_CODE).state == Consented(env, s)
  {
    hide Sealable, Judge, EveryoneConsented, Issued;
    SellerJudged(env, s);
    WhoConsented(env, s);
    assert GrantRecord(HalfConsented(env, s).records, 12, 0) == Consented(env, s).records;
  }

  lemma ConsentedRun(env: Env) returns (tr: Trace, s: State)
    ensures Early(env, tr) && ReadyToConsent(s) && Last(tr) == Consented(env, s)
  {
    hide SetParties, PatchParties, AddParty, UpdateTerms, GenerateUploadUrl, UploadEvidence, ConfirmUpload;
    hide VerifyIdentity, CreateLivenessSession, ProcessLivenessResult, ResolveManualReview, CleanupReference;
    hide ConfirmByPhone, ConfirmReopenByPhone, VerifyOtp, RequestOtp, RequestReopenOtp, ReissueConsent, SyncConsent;
    hide Early, Sealable, Issued;
    tr := CheckedRun(env);
    LastIsEarly(env, tr);
    s := Last(tr);
    Asks(env, s);
    tr := DoEarly(env, tr, DoRequestOtp([BUYER_CODE, SELLER_CODE]), Asked(env, s));
    BuyerConsents(env, s);
    tr := DoEarly(env, tr, DoConfirmByPhone(BUYER_PHONE, BUYER_CODE), HalfConsented(env, s));
    SellerConsents(env, s);
    tr := DoEarly(env, tr, DoConfirmByPhone(SELLER_PHONE, SELLER_CODE), Consented(env, s));
  }

  // ---- The seal ----

  const NEW_TITLE := "Toyota Vitz with trailer"

  function Renamed(env: Env, s: State): State {
    Consented(env, s).(terms := DraftTerms().(title := NEW_TITLE))
  }

  function SealedOf(env: Env, s: State): State {
    s.(status := Sealed, sealedAt := Some(s.now), sealHash := env.digest(PayloadNow(env, s)))
  }

  lemma CanBeSealed(env: Env, s: State)
    requires Sealable(s) && s.status == Active && s.terms.title == NEW_TITLE
    ensures Seal(env, s, true) == Reply(SealedOf(env, s), Done)
  {
    hide ValidNow, PayloadNow, Strip;
    StripOfTrimmed(env.text, NEW_TITLE);
    SealableIsValid(env, s);
  }

  lemma Seals(env: Env, tr: Trace) returns (after: Trace)
    requires Quick(env, tr) && Sealable(Last(tr)) && Last(tr).status == Active && Last(tr).terms.title == NEW_TITLE
    ensures Quick(env, after) && Prolongs(tr, after) && Last(after) == SealedOf(env, Last(tr))
    ensures after.actions == tr.actions + [DoSeal(true)] && after.Committed(env, |tr.actions|)
  {
    hide Apply, Sealable, Trace.Valid, Seal, SealedOf, PhoneFlow;
    Lengths(env, tr);
    CanBeSealed(env, Last(tr));
    SealApplied(env, Last(tr), DoSeal(true));
    assert PhoneFlow(DoSeal(true)) by { SealingIsPhoneFlow(true); }
    after := Do(env, tr, DoSeal(true));
    Lengths(env, after);
    assert after.states[|tr.actions|] == Last(tr);
  }

  lemma SealingIsPhoneFlow(planAllows: bool)
    ensures PhoneFlow(DoSeal(planAllows))
  {
  }

  lemma RenamedIsSealable(env: Env, s: State)
    requires ReadyToConsent(s)
    ensures Sealable(Renamed(env, s))
  {
    hide Complete;
  }

  /** Both parties consent, the title is changed, and the agreement is ready to be sealed. */
  lemma RenamedRun(env: Env) returns (early: Trace, tr: Trace, s: State)
    ensures Early(env, early) && Quick(env, tr) && ReadyToConsent(s) && Last(tr) == Renamed(env, s)
    ensures tr.states == early.states + [Renamed(env, s)] && tr.actions == early.actions + [tr.actions[|early.actions|]]
    ensures tr.states[0] == Drafted() && forall a <- tr.actions :: !a.DoSeal?
  {
    hide SetParties, PatchParties, AddParty, GenerateUploadUrl, UploadEvidence, ConfirmUpload;
    hide VerifyIdentity, CreateLivenessSession, ProcessLivenessResult, ResolveManualReview, CleanupReference;
    hide ConfirmByPhone, ConfirmReopenByPhone, VerifyOtp, RequestOtp, RequestReopenOtp, ReissueConsent, SyncConsent;
    hide Sealable, Issued, Trace.Valid;
    early, s := ConsentedRun(env);
    LastIsEarly(env, early);
    tr := Do(env, early, DoUpdateActive(TermsEdit(Some(NEW_TITLE), None, None, None)));
  }
}
