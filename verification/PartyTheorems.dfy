/** Phone numbers and card numbers stay distinct, whatever is set or patched, so looking a party up by
    phone has one answer. */
module PartyTheorems {
  import opened Wrappers
  import opened Text
  import opened Lifecycle
  import opened Rows
  import opened Phones
  import opened PartyIdentity
  import opened IdentitySteps
  import opened PartySteps
  import opened ConsentSteps
  import opened Protocol
  import opened Integrity

  ghost predicate PhonesDistinct(t: Alphabet, parties: seq<Party>) {
    && (forall p <- parties :: CompareKey(t, p.phone) != "")
    && (forall i, j :: 0 <= i < j < |parties| ==> CompareKey(t, parties[i].phone) != CompareKey(t, parties[j].phone))
  }

  /** The party needs a card number and was given one. */
  predicate HasCard(p: Party) {
    IsIdentityRequired(p.role) && p.idNumber != ""
  }

  ghost predicate PinsDistinct(t: Alphabet, parties: seq<Party>) {
    && (forall p <- parties :: HasCard(p) ==> IsPin(t, p.idNumber))
    && (forall i, j :: 0 <= i < j < |parties| && HasCard(parties[i]) && HasCard(parties[j]) ==>
          parties[i].idNumber != parties[j].idNumber)
  }

  ghost predicate Contacts(t: Alphabet, parties: seq<Party>) {
    PhonesDistinct(t, parties) && PinsDistinct(t, parties)
  }

  // ---- set_parties ----

  lemma CheckedIsPin(t: Alphabet, role: string, idType: string, idNumber: string)
    requires IsIdentityRequired(role) && CheckedIdNumber(t, role, idType, idNumber).Some?
    ensures var pin := CheckedIdNumber(t, role, idType, idNumber).value;
      IsPin(t, pin) && NormalizePin(t, pin) == pin && pin != ""
  {
    PinIsNormal(t, NormalizePin(t, idNumber));
  }

  lemma NewPartyCard(t: Alphabet, pk: nat, input: PartyInput)
    requires IdentityFault(t, input).None? && IsIdentityRequired(input.role)
    ensures var p := NewParty(t, pk, input);
      HasCard(p) && IsPin(t, p.idNumber) && p.idNumber == IdNumberOf(t, input)
      && NormalizePin(t, IdNumberOf(t, input)) == IdNumberOf(t, input) && IdNumberOf(t, input) != ""
  {
    CheckedIsPin(t, input.role, Strip(t, input.idType), input.idNumber);
  }

  lemma SettingGivesContacts(t: Alphabet, keys: set<string>, base: nat, inputs: seq<PartyInput>)
    requires SetFault(t, keys, inputs).None?
    ensures Contacts(t, NewParties(t, base, inputs))
  {
    var ps := NewParties(t, base, inputs);
    hide IdentityFault, IdNumberOf, CompareKey, ToE164, IsPin, CheckedIdNumber;
    assert forall i :: 0 <= i < |ps| ==> ps[i] == NewParty(t, base + i, inputs[i]) && inputs[i] in inputs;
    forall i | 0 <= i < |ps| ensures CompareKey(t, ps[i].phone) != "" && (HasCard(ps[i]) ==> IsPin(t, ps[i].idNumber)) {
      assert PhoneKeyOf(t, inputs[i].phone) != "";
      if IsIdentityRequired(inputs[i].role) {
        NewPartyCard(t, base + i, inputs[i]);
      }
    }
    forall i, j | 0 <= i < j < |ps|
      ensures CompareKey(t, ps[i].phone) != CompareKey(t, ps[j].phone)
      ensures HasCard(ps[i]) && HasCard(ps[j]) ==> ps[i].idNumber != ps[j].idNumber
    {
      assert PhoneKeyOf(t, inputs[i].phone) != PhoneKeyOf(t, inputs[j].phone);
      if HasCard(ps[i]) && HasCard(ps[j]) {
        NewPartyCard(t, base + i, inputs[i]);
        NewPartyCard(t, base + j, inputs[j]);
        assert !SamePin(t, inputs[i], inputs[j]);
      }
    }
  }

  /** One entry's identity fields: given, and a well-formed Ghana card unless for a witness. */
  predicate CardGiven(t: Alphabet, input: PartyInput) {
    && Strip(t, input.idType) != "" && Strip(t, input.idNumber) != ""
    && (input.role != "witness" ==> Strip(t, input.idType) == "ghana_card" && IsPin(t, NormalizePin(t, input.idNumber)))
  }

  /** Two or more entries, of distinct roles, phones and cards, one of them the initiator's. */
  ghost predicate Acceptable(t: Alphabet, initiatorKeys: set<string>, inputs: seq<PartyInput>) {
    && |inputs| >= 2
    && (forall i :: 0 <= i < |inputs| ==> CompareKey(t, inputs[i].phone) != "" && CardGiven(t, inputs[i]))
    && (forall i, j :: 0 <= i < j < |inputs| ==>
          && inputs[i].role != inputs[j].role
          && CompareKey(t, inputs[i].phone) != CompareKey(t, inputs[j].phone))
    && (forall i, j :: 0 <= i < j < |inputs| && inputs[i].role != "witness" && inputs[j].role != "witness" ==>
          NormalizePin(t, inputs[i].idNumber) != NormalizePin(t, inputs[j].idNumber))
    && (exists i :: 0 <= i < |inputs| && CompareKey(t, inputs[i].phone) in initiatorKeys)
  }

  lemma EntryFits(t: Alphabet, input: PartyInput)
    ensures PhoneKeyOf(t, input.phone) == CompareKey(t, input.phone)
    ensures IdentityFault(t, input).None? <==> CardGiven(t, input)
    ensures CardGiven(t, input) && input.role != "witness" ==>
      IdNumberOf(t, input) == NormalizePin(t, input.idNumber) == NormalizePin(t, IdNumberOf(t, input))
    ensures CardGiven(t, input) && input.role == "witness" ==> IdNumberOf(t, input) == Strip(t, input.idNumber)
  {
    hide CompareKey, ToE164, Strip, Upper, IsPin;
    E164KeepsKey(t, input.phone);
    if IsPin(t, NormalizePin(t, input.idNumber)) {
      PinIsNormal(t, NormalizePin(t, input.idNumber));
    }
  }

  lemma EmptyIsNoPin(t: Alphabet)
    ensures !IsPin(t, "")
  {
  }

  function KeysOf(t: Alphabet, inputs: seq<PartyInput>): set<string> {
    set input | input in inputs :: PhoneKeyOf(t, input.phone)
  }

  lemma KeysAreCompared(t: Alphabet, initiatorKeys: set<string>, inputs: seq<PartyInput>)
    ensures "" in KeysOf(t, inputs) <==> exists i :: 0 <= i < |inputs| && CompareKey(t, inputs[i].phone) == ""
    ensures initiatorKeys !! KeysOf(t, inputs) <==>
      !exists i :: 0 <= i < |inputs| && CompareKey(t, inputs[i].phone) in initiatorKeys
    ensures DistinctPhones(t, inputs) <==>
      forall i, j :: 0 <= i < j < |inputs| ==> CompareKey(t, inputs[i].phone) != CompareKey(t, inputs[j].phone)
  {
    hide CompareKey, ToE164;
    forall i | 0 <= i < |inputs|
      ensures inputs[i] in inputs && PhoneKeyOf(t, inputs[i].phone) == CompareKey(t, inputs[i].phone)
    {
      E164KeepsKey(t, inputs[i].phone);
    }
    hide PhoneKeyOf;
    forall i | 0 <= i < |inputs| ensures CompareKey(t, inputs[i].phone) in KeysOf(t, inputs) {
    }
    forall key | key in KeysOf(t, inputs)
      ensures exists i :: 0 <= i < |inputs| && CompareKey(t, inputs[i].phone) == key
    {
      var input :| input in inputs && PhoneKeyOf(t, input.phone) == key;
      var i :| 0 <= i < |inputs| && inputs[i] == input;
    }
  }

  lemma CardsGiven(t: Alphabet, inputs: seq<PartyInput>)
    ensures FirstIdentityFault(t, inputs).None? <==> forall i :: 0 <= i < |inputs| ==> CardGiven(t, inputs[i])
  {
    hide IdentityFault, CardGiven, PhoneKeyOf, IdNumberOf, CompareKey, NormalizePin, Strip;
    forall i | 0 <= i < |inputs|
      ensures inputs[i] in inputs && (IdentityFault(t, inputs[i]).None? <==> CardGiven(t, inputs[i]))
    {
      EntryFits(t, inputs[i]);
    }
    assert (forall input <- inputs :: IdentityFault(t, input).None?) <==>
      forall i :: 0 <= i < |inputs| ==> IdentityFault(t, inputs[i]).None?;
  }

  lemma FaultlessExactly(t: Alphabet, initiatorKeys: set<string>, inputs: seq<PartyInput>)
    ensures SetFault(t, initiatorKeys, inputs).None? <==> Acceptable(t, initiatorKeys, inputs)
  {
    hide CompareKey, PhoneKeyOf, CardGiven, NormalizePin, FirstIdentityFault, UniquePins, DistinctPhones;
    KeysAreCompared(t, initiatorKeys, inputs);
    CardsGiven(t, inputs);
    if FirstIdentityFault(t, inputs).None? {
      PinsApart(t, inputs);
    }
    assert KeysOf(t, inputs) == set input | input in inputs :: PhoneKeyOf(t, input.phone);
  }

  lemma PinsApart(t: Alphabet, inputs: seq<PartyInput>)
    requires forall i :: 0 <= i < |inputs| ==> CardGiven(t, inputs[i])
    ensures UniquePins(t, inputs) <==>
      forall i, j :: 0 <= i < j < |inputs| && inputs[i].role != "witness" && inputs[j].role != "witness" ==>
        NormalizePin(t, inputs[i].idNumber) != NormalizePin(t, inputs[j].idNumber)
  {
    hide IdNumberOf, NormalizePin, Strip, IdentityFault, PhoneKeyOf, CompareKey, ToE164;
    EmptyIsNoPin(t);
    forall i | 0 <= i < |inputs| && inputs[i].role != "witness"
      ensures NormalizePin(t, IdNumberOf(t, inputs[i])) == NormalizePin(t, inputs[i].idNumber) != ""
    {
      EntryFits(t, inputs[i]);
    }
    hide CardGiven, IsPin;
    assert forall i, j :: 0 <= i < |inputs| && 0 <= j < |inputs| ==>
      (SamePin(t, inputs[i], inputs[j]) <==>
        && inputs[i].role != "witness" && inputs[j].role != "witness"
        && NormalizePin(t, inputs[i].idNumber) == NormalizePin(t, inputs[j].idNumber));
  }

  /** set_parties is accepted exactly in DRAFT and ACTIVE and for an acceptable list. */
  lemma SetsExactly(env: Env, s: State, initiatorKeys: set<string>, inputs: seq<PartyInput>)
    ensures SetParties(env, s, initiatorKeys, inputs).outcome == Done <==>
      s.status in {Draft, Active} && Acceptable(env.text, initiatorKeys, inputs)
  {
    hide SetFault, Acceptable, NewParties, NewChecks;
    FaultlessExactly(env.text, initiatorKeys, inputs);
  }

  /** The row says what the entry said, with the phone's key and the card number normalised. */
  predicate AsGiven(t: Alphabet, p: Party, input: PartyInput) {
    && p.role == input.role && p.displayName == input.fullName && p.idType == input.idType
    && CompareKey(t, p.phone) == CompareKey(t, input.phone)
    && p.idNumber == if input.role == "witness" then Strip(t, input.idNumber) else NormalizePin(t, input.idNumber)
  }

  lemma RowAsGiven(t: Alphabet, pk: nat, input: PartyInput)
    requires CardGiven(t, input)
    ensures AsGiven(t, NewParty(t, pk, input), input)
  {
    hide CompareKey, IdNumberOf, CardGiven, NormalizePin, Strip, ToE164, PhoneKeyOf;
    EntryFits(t, input);
    E164KeepsKey(t, input.phone);
  }

  /** An accepted list becomes the parties, row by row under new keys, and one of them is the initiator. */
  lemma SetsTheParties(env: Env, s: State, initiatorKeys: set<string>, inputs: seq<PartyInput>)
    requires SetParties(env, s, initiatorKeys, inputs).outcome == Done
    ensures var s' := SetParties(env, s, initiatorKeys, inputs).state;
      && |s'.parties| == |inputs|
      && (forall i :: 0 <= i < |inputs| ==>
            AsGiven(env.text, s'.parties[i], inputs[i]) && s'.parties[i].pk == s.nextPk + i)
      && (exists p <- s'.parties :: CompareKey(env.text, p.phone) in initiatorKeys)
  {
    hide CompareKey, CardGiven, SetFault, AsGiven, NewChecks, RecordsWithout, NewParty;
    SetsExactly(env, s, initiatorKeys, inputs);
    var ps := NewParties(env.text, s.nextPk, inputs);
    forall i | 0 <= i < |inputs| ensures AsGiven(env.text, ps[i], inputs[i]) && ps[i].pk == s.nextPk + i {
      RowAsGiven(env.text, s.nextPk + i, inputs[i]);
      NewKey(env.text, s.nextPk + i, inputs[i]);
    }
    var i :| 0 <= i < |inputs| && CompareKey(env.text, inputs[i].phone) in initiatorKeys;
    GivenKey(env.text, ps[i], inputs[i]);
    assert ps[i] in ps;
  }

  lemma NewKey(t: Alphabet, pk: nat, input: PartyInput)
    ensures NewParty(t, pk, input).pk == pk
  {
  }

  lemma GivenKey(t: Alphabet, p: Party, input: PartyInput)
    requires AsGiven(t, p, input)
    ensures CompareKey(t, p.phone) == CompareKey(t, input.phone)
  {
  }

  /** The checks of all but witnesses start over. */
  lemma SettingStartsChecks(env: Env, s: State, initiatorKeys: set<string>, inputs: seq<PartyInput>, i: nat)
    requires SetParties(env, s, initiatorKeys, inputs).outcome == Done
    requires i < |inputs| && inputs[i].role != "witness"
    ensures var s' := SetParties(env, s, initiatorKeys, inputs).state;
      && i < |s'.parties| && s'.parties[i].pk in s'.verifications
      && var v := s'.verifications[s'.parties[i].pk];
         v.status == Pending && v.livenessStatus == "" && v.referenceKey == "" && v.enteredName == inputs[i].fullName
  {
    hide CompareKey, ToE164, IdNumberOf, SetFault, NormalizePin;
    var ps := NewParties(env.text, s.nextPk, inputs);
    assert ps[i] == NewParty(env.text, s.nextPk + i, inputs[i]) && ps[i] in ps;
    var found := PartyAt(ps, ps[i].pk);
    assert found.Some?;
    var j :| 0 <= j < |ps| && ps[j] == found.value;
    assert ps[j].pk == s.nextPk + j;
    assert ps[i].pk in CardHolders(ps);
  }

  // ---- patch_parties ----

  /** The patch names the party's role, a phone number no other party has, and leaves it a valid Ghana card
      no other party shows; a witness needs none. */
  ghost predicate PatchFits(t: Alphabet, parties: seq<Party>, i: nat, patch: PartyPatch)
    requires i < |parties|
  {
    && parties[i].role == patch.role
    && (patch.phone.Some? ==> NewPhone(t, parties, i, CompareKey(t, patch.phone.value)))
    && ((patch.idType.Some? || patch.idNumber.Some?) && patch.role != "witness" ==>
          && Given(patch.idType, parties[i].idType) == "ghana_card"
          && NewCard(t, parties, i, NormalizePin(t, Given(patch.idNumber, parties[i].idNumber))))
  }

  /** What a patch says, or else what was there. */
  function Given(patched: Option<string>, before: string): string {
    match patched
    case Some(value) => value
    case None => before
  }

  ghost predicate NewPhone(t: Alphabet, parties: seq<Party>, i: nat, key: string) {
    key != "" && forall j :: 0 <= j < |parties| && j != i ==> CompareKey(t, parties[j].phone) != key
  }

  ghost predicate NewCard(t: Alphabet, parties: seq<Party>, i: nat, pin: string) {
    && IsPin(t, pin)
    && forall j :: 0 <= j < |parties| && j != i && parties[j].role != "witness" && parties[j].idNumber != "" ==>
      NormalizePin(t, parties[j].idNumber) != pin
  }

  /** The row as patched: what the patch says, the phone's key and the card number normalised, else as before. */
  predicate PatchedAs(t: Alphabet, before: Party, after: Party, patch: PartyPatch) {
    && after.pk == before.pk && after.role == before.role
    && after.displayName == Given(patch.fullName, before.displayName)
    && after.idType == Given(patch.idType, before.idType)
    && (patch.phone.None? ==> after.phone == before.phone)
    && (patch.phone.Some? ==> CompareKey(t, after.phone) == CompareKey(t, patch.phone.value))
    && after.idNumber ==
       if before.role == "witness"
       then (if patch.idNumber.Some? then Strip(t, patch.idNumber.value) else before.idNumber)
       else if patch.idType.Some? || patch.idNumber.Some?
       then NormalizePin(t, Given(patch.idNumber, before.idNumber)) else before.idNumber
  }

  lemma PhonePatchFits(t: Alphabet, parties: seq<Party>, i: nat, patch: PartyPatch)
    ensures PatchPhone(t, parties, i, patch).None? <==>
      (patch.phone.Some? ==> NewPhone(t, parties, i, CompareKey(t, patch.phone.value)))
    ensures patch.phone.Some? ==> CompareKey(t, ToE164(t, patch.phone.value)) == CompareKey(t, patch.phone.value)
  {
    hide CompareKey, ToE164;
    if patch.phone.Some? {
      E164KeepsKey(t, patch.phone.value);
    }
  }

  lemma CardPatchFits(t: Alphabet, parties: seq<Party>, i: nat, role: string, idType: string, idNumber: string)
    requires role != "witness"
    ensures var checked := CheckedIdNumber(t, role, idType, idNumber);
      && (checked.Some? && checked.value !in OtherPins(t, parties, i) <==>
            idType == "ghana_card" && NewCard(t, parties, i, NormalizePin(t, idNumber)))
      && (checked.Some? ==> checked.value == NormalizePin(t, idNumber))
  {
    hide NormalizePin, IsPin;
  }

  /** One patch of a party goes through exactly if it fits, and changes that row as it says. */
  lemma PatchesExactly(t: Alphabet, parties: seq<Party>, checks: map<nat, Verification>, patch: PartyPatch, i: nat)
    requires IndexOfRole(parties, patch.role) == Some(i)
    ensures PatchOne(t, parties, checks, patch).PatchDone? <==> PatchFits(t, parties, i, patch)
    ensures var r := PatchOne(t, parties, checks, patch);
      r.PatchDone? ==>
        |r.parties| == |parties| && r.parties == parties[i := r.parties[i]]
        && PatchedAs(t, parties[i], r.parties[i], patch)
  {
    hide CompareKey, ToE164, NormalizePin, Strip, IsPin, NewPhone, NewCard, OtherPins, PatchPhone, WithReset;
    hide IndexOfRole;
    PhonePatchFits(t, parties, i, patch);
    var p := PatchFields(t, parties[i], patch);
    if patch.role != "witness" {
      CardPatchFits(t, parties, i, patch.role, p.idType, p.idNumber);
      hide CheckedIdNumber;
    }
  }

  /** Its check starts over exactly if the name or the card was named, from the row as it is then. */
  lemma PatchRestartsExactly(t: Alphabet, parties: seq<Party>, checks: map<nat, Verification>, patch: PartyPatch,
      i: nat)
    requires IndexOfRole(parties, patch.role) == Some(i) && PatchOne(t, parties, checks, patch).PatchDone?
    ensures var r, pk := PatchOne(t, parties, checks, patch), parties[i].pk;
      if patch.role == "witness" || (patch.fullName.None? && patch.idType.None? && patch.idNumber.None?)
      then r.checks == checks
      else
        && pk in r.checks && r.checks == checks[pk := r.checks[pk]]
        && r.checks[pk].status == Pending && r.checks[pk].codes == [] && r.checks[pk].verifiedAt == None
        && r.checks[pk].enteredName == r.parties[i].displayName
        && r.checks[pk].enteredPin == NormalizePin(t, r.parties[i].idNumber)
        && (pk in checks ==> r.checks[pk].livenessStatus == checks[pk].livenessStatus)
        && (pk in checks ==> r.checks[pk].referenceKey == checks[pk].referenceKey)
  {
    hide CompareKey, ToE164, NormalizePin, Strip, OtherPins, PatchPhone, CheckedIdNumber, IndexOfRole;
  }

  lemma {:induction false} NoSuchRolePatch(t: Alphabet, parties: seq<Party>, checks: map<nat, Verification>,
      patch: PartyPatch)
    requires forall p <- parties :: p.role != patch.role
    ensures PatchOne(t, parties, checks, patch) == PatchFault(NoSuchRole)
  {
    hide PatchPhone, CheckedIdNumber;
  }

  /** Two lists of patches in a row are one list: they are applied in order, and the first fault undoes all. */
  lemma {:induction false} PatchesCompose(t: Alphabet, parties: seq<Party>, checks: map<nat, Verification>,
      first: seq<PartyPatch>, second: seq<PartyPatch>)
    ensures var mid := PatchAll(t, parties, checks, first);
      PatchAll(t, parties, checks, first + second) ==
        if mid.PatchFault? then mid else PatchAll(t, mid.parties, mid.checks, second)
  {
    hide PatchOne;
    if second == [] {
      assert first + second == first;
    } else {
      var last := |second| - 1;
      PatchesCompose(t, parties, checks, first, second[..last]);
      assert (first + second)[..|first + second| - 1] == first + second[..last];
    }
  }

  /** The call takes the list in DRAFT and ACTIVE only. */
  lemma PatchesWhenEditable(env: Env, s: State, patches: seq<PartyPatch>)
    ensures var reply, r := PatchParties(env, s, patches), PatchAll(env.text, s.parties, s.verifications, patches);
      && (reply.outcome == Done <==> s.status in {Draft, Active} && r.PatchDone?)
      && (reply.outcome == Done ==> reply.state.parties == r.parties && reply.state.verifications == r.checks)
  {
    hide PatchAll;
  }

  lemma {:induction false} PatchOneKeepsContacts(t: Alphabet, parties: seq<Party>,
      checks: map<nat, Verification>, patch: PartyPatch)
    requires Contacts(t, parties) && PatchOne(t, parties, checks, patch).PatchDone?
    ensures Contacts(t, PatchOne(t, parties, checks, patch).parties)
  {
    hide CompareKey, ToE164, IsPin, NormalizePin, CheckedIdNumber;
    var i := IndexOfRole(parties, patch.role).value;
    var after := PatchOne(t, parties, checks, patch).parties;
    assert after == parties[i := after[i]];
    PatchedPhone(t, parties, checks, patch, i);
    PatchedCard(t, parties, checks, patch, i);
    hide PatchOne;
    assert forall j :: 0 <= j < |parties| && j != i ==> after[j] == parties[j] && parties[j] in parties;
  }

  lemma PatchedPhone(t: Alphabet, parties: seq<Party>, checks: map<nat, Verification>, patch: PartyPatch, i: nat)
    requires PhonesDistinct(t, parties) && PatchOne(t, parties, checks, patch).PatchDone?
    requires IndexOfRole(parties, patch.role) == Some(i)
    ensures var p := PatchOne(t, parties, checks, patch).parties[i];
      && CompareKey(t, p.phone) != ""
      && forall j :: 0 <= j < |parties| && j != i ==> CompareKey(t, parties[j].phone) != CompareKey(t, p.phone)
  {
    hide CompareKey, ToE164, CheckedIdNumber;
    var p := PatchOne(t, parties, checks, patch).parties[i];
    if patch.phone.Some? {
      assert PhoneKeyOf(t, patch.phone.value) !in OtherPhoneKeys(t, parties, i);
    } else {
      assert p.phone == parties[i].phone;
    }
  }

  /** What a patch leaves in the card number of its row. */
  lemma SavedNumber(t: Alphabet, parties: seq<Party>, checks: map<nat, Verification>, patch: PartyPatch, i: nat)
    requires PatchOne(t, parties, checks, patch).PatchDone?
    requires IndexOfRole(parties, patch.role) == Some(i)
    ensures var p, fields := PatchOne(t, parties, checks, patch).parties[i], PatchFields(t, parties[i], patch);
      && p.role == parties[i].role == patch.role
      && (patch.idType.None? && patch.idNumber.None? ==> p.idNumber == parties[i].idNumber)
      && (IsIdentityRequired(patch.role) && (patch.idType.Some? || patch.idNumber.Some?) ==>
            CheckedIdNumber(t, patch.role, fields.idType, fields.idNumber) == Some(p.idNumber)
            && p.idNumber !in OtherPins(t, parties, i))
  {
    hide CompareKey, ToE164, CheckedIdNumber, NormalizePin, PatchPhone, WithReset, OtherPins;
  }

  lemma NotAnotherPin(t: Alphabet, parties: seq<Party>, i: nat, pin: string, j: nat)
    requires j < |parties| && j != i && HasCard(parties[j]) && IsPin(t, parties[j].idNumber)
    requires pin !in OtherPins(t, parties, i)
    ensures parties[j].idNumber != pin
  {
    PinIsNormal(t, parties[j].idNumber);
    hide NormalizePin, IsPin;
  }

  /** The row's card number is a valid one that no other party shows. */
  ghost predicate CardStandsOut(t: Alphabet, parties: seq<Party>, i: nat, p: Party) {
    && (HasCard(p) ==> IsPin(t, p.idNumber))
    && forall j :: 0 <= j < |parties| && j != i && HasCard(p) && HasCard(parties[j]) ==>
      parties[j].idNumber != p.idNumber
  }

  lemma SameCardStandsOut(t: Alphabet, parties: seq<Party>, i: nat, p: Party)
    requires PinsDistinct(t, parties) && i < |parties|
    requires p.role == parties[i].role && p.idNumber == parties[i].idNumber
    ensures CardStandsOut(t, parties, i, p)
  {
    hide IsPin;
    assert parties[i] in parties;
  }

  lemma NewCardStandsOut(t: Alphabet, parties: seq<Party>, i: nat, p: Party)
    requires PinsDistinct(t, parties) && IsPin(t, p.idNumber) && p.idNumber !in OtherPins(t, parties, i)
    ensures CardStandsOut(t, parties, i, p)
  {
    hide IsPin, OtherPins;
    forall j: nat | j < |parties| && j != i && HasCard(parties[j]) ensures parties[j].idNumber != p.idNumber {
      assert parties[j] in parties;
      NotAnotherPin(t, parties, i, p.idNumber, j);
    }
  }

  lemma PatchedCard(t: Alphabet, parties: seq<Party>, checks: map<nat, Verification>, patch: PartyPatch, i: nat)
    requires PinsDistinct(t, parties) && PatchOne(t, parties, checks, patch).PatchDone?
    requires IndexOfRole(parties, patch.role) == Some(i)
    ensures CardStandsOut(t, parties, i, PatchOne(t, parties, checks, patch).parties[i])
  {
    hide IsPin, CheckedIdNumber, NormalizePin, PatchFields, OtherPins, PinsDistinct, PatchPhone, WithReset;
    var p := PatchOne(t, parties, checks, patch).parties[i];
    var fields := PatchFields(t, parties[i], patch);
    SavedNumber(t, parties, checks, patch, i);
    if IsIdentityRequired(patch.role) {
      hide CardStandsOut;
      if patch.idType.Some? || patch.idNumber.Some? {
        CheckedIsPin(t, patch.role, fields.idType, fields.idNumber);
        NewCardStandsOut(t, parties, i, p);
      } else {
        SameCardStandsOut(t, parties, i, p);
      }
    }
  }

  lemma {:induction false} PatchingKeepsContacts(t: Alphabet, parties: seq<Party>,
      checks: map<nat, Verification>, patches: seq<PartyPatch>)
    requires Contacts(t, parties) && PatchAll(t, parties, checks, patches).PatchDone?
    ensures Contacts(t, PatchAll(t, parties, checks, patches).parties)
  {
    if patches != [] {
      var last := |patches| - 1;
      PatchingKeepsContacts(t, parties, checks, patches[..last]);
      var mid := PatchAll(t, parties, checks, patches[..last]);
      PatchOneKeepsContacts(t, mid.parties, mid.checks, patches[last]);
    }
  }

  /** The older call adds one party to a draft, in a role that is free, without phone or card. */
  lemma AddsExactly(s: State, role: string, displayName: string, identityExists: bool)
    ensures AddParty(s, role, displayName, identityExists).outcome == Done <==>
      s.status == Draft && identityExists && forall i :: 0 <= i < |s.parties| ==> s.parties[i].role != role
    ensures var reply := AddParty(s, role, displayName, identityExists);
      reply.outcome == Done ==>
        && |reply.state.parties| == |s.parties| + 1 && reply.state.parties[..|s.parties|] == s.parties
        && reply.state.parties[|s.parties|] == Party(s.nextPk, role, displayName, "", "", "")
        && reply.state.nextPk == s.nextPk + 1
  {
    if role in PartyRoles(s.parties) {
      var p :| p in s.parties && p.role == role;
      var i :| 0 <= i < |s.parties| && s.parties[i] == p;
    }
  }

  // ---- Every phone-flow run ----

  lemma ContactsStep(env: Env, s: State, a: Action)
    requires PhoneFlow(a) && Contacts(env.text, s.parties)
    ensures Contacts(env.text, Apply(env, s, a).state.parties)
  {
    hide Contacts, PatchAll, SetFault;
    Frame(env, s, a);
    if a.DoPatchParties? {
      if PatchAll(env.text, s.parties, s.verifications, a.patches).PatchDone? {
        PatchingKeepsContacts(env.text, s.parties, s.verifications, a.patches);
      }
    } else if a.DoSetParties? {
      if SetFault(env.text, a.initiatorKeys, a.inputs).None? {
        SettingGivesContacts(env.text, a.initiatorKeys, s.nextPk, a.inputs);
      }
    }
  }

  lemma ContactsStepAt(env: Env, tr: Trace, i: nat)
    requires tr.Valid(env) && tr.Phone() && i < |tr.actions| && Contacts(env.text, tr.states[i].parties)
    ensures Contacts(env.text, tr.states[i + 1].parties)
  {
    hide Apply, Contacts;
    assert tr.Follows(env, i) && tr.actions[i] in tr.actions;
    ContactsStep(env, tr.states[i], tr.actions[i]);
  }

  /** In every state the parties' phone keys are non-empty and distinct, and so are the card numbers
      they were given, each a valid one. */
  lemma {:induction false} AlwaysContacts(env: Env, tr: Trace, n: nat)
    requires tr.Valid(env) && tr.Phone() && n < |tr.states|
    ensures Contacts(env.text, tr.states[n].parties)
  {
    hide Apply;
    if n > 0 {
      AlwaysContacts(env, tr, n - 1);
      hide Contacts;
      ContactsStepAt(env, tr, n - 1);
    }
  }

  // ---- Looking a party up by phone ----

  lemma {:induction false} LookupIgnoresOrder(t: Alphabet, a: seq<Party>, b: seq<Party>, phone: string)
    requires PhonesDistinct(t, a) && multiset(a) == multiset(b)
    ensures PartyByPhone(t, a, phone) == PartyByPhone(t, b, phone)
  {
    forall p ensures p in a <==> p in b {
      assert p in a <==> p in multiset(a);
      assert p in b <==> p in multiset(b);
    }
    var x, y := PartyByPhone(t, a, phone), PartyByPhone(t, b, phone);
    if x.Some? && y.Some? {
      var i :| 0 <= i < |a| && a[i] == x.value;
      var j :| 0 <= j < |a| && a[j] == y.value;
      assert i == j;
    }
  }

  /** The party a phone number belongs to is the only one with its key, in whatever order the database
      returns the parties. */
  lemma PhoneNamesOneParty(env: Env, tr: Trace, n: nat, scan: seq<Party>, phone: string)
    requires tr.Valid(env) && tr.Phone() && n < |tr.states| && multiset(scan) == multiset(tr.states[n].parties)
    ensures PartyByPhone(env.text, scan, phone) == PartyByPhone(env.text, tr.states[n].parties, phone)
    ensures forall p <- tr.states[n].parties :: CompareKey(env.text, p.phone) == CompareKey(env.text, phone) ==>
      PartyByPhone(env.text, scan, phone) == Some(p)
  {
    hide Apply;
    AlwaysContacts(env, tr, n);
    LookupIgnoresOrder(env.text, tr.states[n].parties, scan, phone);
    var parties := tr.states[n].parties;
    forall p | p in parties && CompareKey(env.text, p.phone) == CompareKey(env.text, phone)
      ensures PartyByPhone(env.text, parties, phone) == Some(p)
    {
      var i :| 0 <= i < |parties| && parties[i] == p;
      var j :| 0 <= j < |parties| && parties[j] == PartyByPhone(env.text, parties, phone).value;
      assert i == j;
    }
  }
}
