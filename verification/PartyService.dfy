/** parties/services.py: the methods that replace and patch an agreement's parties in place. */
module PartyService {
  import opened Wrappers
  import opened Text
  import opened Lifecycle
  import opened Rows
  import opened Phones
  import opened PartyIdentity
  import opened IdentitySteps
  import opened PartySteps
  import opened ConsentSelectors
  import opened AgreementDb

  // ---- set_parties ----

  /** len(values) != len(set(values)) */
  predicate Repeats(values: seq<string>) {
    |values| != |set v | v in values|
  }

  lemma {:induction false} RepeatsExactly(values: seq<string>)
    ensures !Repeats(values) <==> forall i, j :: 0 <= i < j < |values| ==> values[i] != values[j]
    ensures |set v | v in values| <= |values|
  {
    var distinct := set v | v in values;
    if values == [] {
      assert distinct == {};
    } else {
      var front, last := values[..|values| - 1], values[|values| - 1];
      var rest := set v | v in front;
      RepeatsExactly(front);
      assert values == front + [last];
      assert distinct == rest + {last};
      if last in front {
        var i :| 0 <= i < |front| && front[i] == last;
        assert values[i] == values[|values| - 1];
      }
    }
  }

  /** _normalized_party_payloads */
  method NormalizedPhones(t: Alphabet, inputs: seq<PartyInput>) returns (phones: seq<string>, fault: Option<Reason>)
    ensures fault == if exists input <- inputs :: PhoneKeyOf(t, input.phone) == "" then Some(MissingPhone)
      else if !DistinctPhones(t, inputs) then Some(DuplicatePhone) else None
    ensures fault.None? ==>
      |phones| == |inputs| && forall i :: 0 <= i < |phones| ==> phones[i] == ToE164(t, inputs[i].phone)
  {
    phones := [];
    var keys: seq<string> := [];
    for i := 0 to |inputs|
      invariant |phones| == |keys| == i
      invariant forall j :: 0 <= j < i ==>
        phones[j] == ToE164(t, inputs[j].phone) && keys[j] == CompareKey(t, phones[j])
      invariant forall j :: 0 <= j < i ==> PhoneKeyOf(t, inputs[j].phone) != ""
    {
      var phone := ToE164(t, inputs[i].phone);
      var key := CompareKey(t, phone);
      if key == "" {
        assert PhoneKeyOf(t, inputs[i].phone) == "";
        return phones, Some(MissingPhone);
      }
      phones := phones + [phone];
      keys := keys + [key];
    }
    RepeatsExactly(keys);
    assert forall i :: 0 <= i < |inputs| ==> keys[i] == PhoneKeyOf(t, inputs[i].phone);
    fault := if Repeats(keys) then Some(DuplicatePhone) else None;
  }

  /** _normalized_identity_payloads, then ensure_unique_pins over what it made. */
  method NormalizedPins(t: Alphabet, inputs: seq<PartyInput>) returns (pins: seq<string>, fault: Option<Reason>)
    ensures fault == if FirstIdentityFault(t, inputs).Some? then FirstIdentityFault(t, inputs)
      else if !UniquePins(t, inputs) then Some(DuplicatePin) else None
    ensures fault.None? ==> |pins| == |inputs| && forall i :: 0 <= i < |pins| ==> pins[i] == IdNumberOf(t, inputs[i])
  {
    pins := [];
    for i := 0 to |inputs|
      invariant |pins| == i
      invariant forall j :: 0 <= j < i ==> pins[j] == IdNumberOf(t, inputs[j])
      invariant FirstIdentityFault(t, inputs) == FirstIdentityFault(t, inputs[i..])
    {
      if Blank(t, inputs[i].idType) || Blank(t, inputs[i].idNumber) {
        return pins, Some(MissingIdentity);
      }
      var pin := CheckedIdNumber(t, inputs[i].role, Strip(t, inputs[i].idType), inputs[i].idNumber);
      if pin.None? {
        return pins, Some(BadIdentity);
      }
      pins := pins + [pin.value];
    }
    var unique := EnsureUniquePins(t, inputs, pins);
    fault := if unique then None else Some(DuplicatePin);
  }

  ghost predicate PinSeen(t: Alphabet, front: seq<PartyInput>, pin: string) {
    exists a <- front :: IsIdentityRequired(a.role) && pin != "" && NormalizePin(t, IdNumberOf(t, a)) == pin
  }

  lemma UniqueWithOneMore(t: Alphabet, front: seq<PartyInput>, input: PartyInput)
    ensures UniquePins(t, front + [input]) <==> UniquePins(t, front) && forall a <- front :: !SamePin(t, a, input)
  {
    hide SamePin;
    var all := front + [input];
    if UniquePins(t, all) {
      forall i, j | 0 <= i < j < |front| ensures !SamePin(t, front[i], front[j]) {
        assert !SamePin(t, all[i], all[j]);
      }
      forall a | a in front ensures !SamePin(t, a, input) {
        var i :| 0 <= i < |front| && front[i] == a;
        assert !SamePin(t, all[i], all[|front|]);
      }
    }
  }

  lemma UniqueOfPrefix(t: Alphabet, inputs: seq<PartyInput>, n: nat)
    requires n <= |inputs| && UniquePins(t, inputs)
    ensures UniquePins(t, inputs[..n])
  {
    hide SamePin;
    forall i, j | 0 <= i < j < n ensures !SamePin(t, inputs[..n][i], inputs[..n][j]) {
      assert !SamePin(t, inputs[i], inputs[j]);
    }
  }

  lemma SeenWithOneMore(t: Alphabet, front: seq<PartyInput>, input: PartyInput, pin: string)
    ensures PinSeen(t, front + [input], pin) <==>
      || PinSeen(t, front, pin)
      || (IsIdentityRequired(input.role) && pin != "" && NormalizePin(t, IdNumberOf(t, input)) == pin)
  {
    hide NormalizePin, IdNumberOf;
    assert forall a :: a in front + [input] <==> a in front || a == input;
  }

  lemma SeenMeansSame(t: Alphabet, front: seq<PartyInput>, input: PartyInput)
    requires IsIdentityRequired(input.role) && NormalizePin(t, IdNumberOf(t, input)) != ""
    ensures PinSeen(t, front, NormalizePin(t, IdNumberOf(t, input))) <==> exists a <- front :: SamePin(t, a, input)
  {
    hide NormalizePin, IdNumberOf;
  }

  /** ensure_unique_pins: one pass with a dictionary of the numbers seen. */
  method EnsureUniquePins(t: Alphabet, inputs: seq<PartyInput>, pins: seq<string>) returns (unique: bool)
    requires |pins| == |inputs| && forall i :: 0 <= i < |pins| ==> pins[i] == IdNumberOf(t, inputs[i])
    ensures unique <==> UniquePins(t, inputs)
  {
    hide UniquePins, PinSeen, NormalizePin, IdNumberOf;
    assert UniquePins(t, inputs[..0]) by { NoneRepeats(t); }
    var seen: map<string, string> := map[];
    assert forall pin :: !PinSeen(t, inputs[..0], pin) by { NoneRepeats(t); }
    for i := 0 to |inputs|
      invariant UniquePins(t, inputs[..i])
      invariant forall pin :: pin in seen <==> PinSeen(t, inputs[..i], pin)
    {
      assert inputs[..i + 1] == inputs[..i] + [inputs[i]];
      UniqueWithOneMore(t, inputs[..i], inputs[i]);
      forall pin ensures PinSeen(t, inputs[..i + 1], pin) <==>
        PinSeen(t, inputs[..i], pin)
        || (IsIdentityRequired(inputs[i].role) && pin != "" && NormalizePin(t, IdNumberOf(t, inputs[i])) == pin)
      {
        SeenWithOneMore(t, inputs[..i], inputs[i], pin);
      }
      if IsIdentityRequired(inputs[i].role) {
        var pin := NormalizePin(t, pins[i]);
        if pin != "" {
          SeenMeansSame(t, inputs[..i], inputs[i]);
          if pin in seen {
            if UniquePins(t, inputs) {
              UniqueOfPrefix(t, inputs, i + 1);
            }
            return false;
          }
          seen := seen[pin := inputs[i].role];
        }
      }
    }
    assert inputs[..|inputs|] == inputs;
    return true;
  }

  lemma NoneRepeats(t: Alphabet)
    ensures UniquePins(t, []) && forall pin :: !PinSeen(t, [], pin)
  {
  }

  /** Deleting the parties deletes their records and verifications. */
  method DeleteParties(db: Db)
    modifies db`parties, db`records, db`verifications
    ensures db.parties == []
    ensures db.records == RecordsWithout(old(db.records), PartyPks(old(db.parties)))
    ensures db.verifications == old(db.verifications) - PartyPks(old(db.parties))
  {
    db.records := RecordsWithout(db.records, PartyPks(db.parties));
    db.verifications := db.verifications - PartyPks(db.parties);
    db.parties := [];
  }

  method CreateParties(db: Db, inputs: seq<PartyInput>, phones: seq<string>, pins: seq<string>, ghost t: Alphabet)
    requires |phones| == |pins| == |inputs| && db.parties == []
    requires forall i :: 0 <= i < |inputs| ==>
      phones[i] == ToE164(t, inputs[i].phone) && pins[i] == IdNumberOf(t, inputs[i])
    modifies db`parties, db`nextPk
    ensures db.parties == NewParties(t, old(db.nextPk), inputs) && db.nextPk == old(db.nextPk) + |inputs|
  {
    ghost var base := db.nextPk;
    for i := 0 to |inputs|
      invariant db.nextPk == base + i
      invariant db.parties == NewParties(t, base, inputs)[..i]
    {
      db.parties := db.parties
        + [Party(db.nextPk, inputs[i].role, inputs[i].fullName, phones[i], inputs[i].idType, pins[i])];
      db.nextPk := db.nextPk + 1;
    }
  }

  /** A fresh verification row is what resetting it gives. */
  lemma FreshIsReset(t: Alphabet, checks: map<nat, Verification>, p: Party)
    requires p.pk !in checks
    ensures WithReset(t, checks, p) == checks[p.pk := FreshCheck(t, p)]
  {
  }

  /** The rows of the card holders among the first n parties. */
  ghost predicate ChecksOfFirst(t: Alphabet, parties: seq<Party>, n: nat, checks: map<nat, Verification>)
    requires n <= |parties|
  {
    && checks.Keys == CardHolders(parties[..n])
    && forall i :: 0 <= i < n && IsIdentityRequired(parties[i].role) ==>
      checks[parties[i].pk] == FreshCheck(t, parties[i])
  }

  lemma OneMoreCheck(t: Alphabet, parties: seq<Party>, n: nat, checks: map<nat, Verification>)
    requires n < |parties| && ChecksOfFirst(t, parties, n, checks)
    requires forall i, j :: 0 <= i < j < |parties| ==> parties[i].pk != parties[j].pk
    ensures ChecksOfFirst(t, parties, n + 1,
              if IsIdentityRequired(parties[n].role) then WithReset(t, checks, parties[n]) else checks)
  {
    hide FreshCheck, EnsureCheck, ResetCheck;
    var p := parties[n];
    assert parties[..n + 1] == parties[..n] + [p];
    if IsIdentityRequired(p.role) {
      FreshIsReset(t, checks, p);
    }
  }

  method ResetNewParties(t: Alphabet, db: Db)
    requires forall i, j :: 0 <= i < j < |db.parties| ==> db.parties[i].pk != db.parties[j].pk
    requires db.verifications == map[]
    modifies db`verifications
    ensures db.verifications == NewChecks(t, db.parties)
  {
    assert ChecksOfFirst(t, db.parties, 0, db.verifications);
    hide ChecksOfFirst, WithReset, NewChecks;
    for i := 0 to |db.parties|
      invariant ChecksOfFirst(t, db.parties, i, db.verifications)
    {
      OneMoreCheck(t, db.parties, i, db.verifications);
      if IsIdentityRequired(db.parties[i].role) {
        db.verifications := WithReset(t, db.verifications, db.parties[i]);
      }
    }
    AllChecksAreNew(t, db.parties, db.verifications);
  }

  lemma FoundAt(parties: seq<Party>, i: nat)
    requires i < |parties| && forall i, j :: 0 <= i < j < |parties| ==> parties[i].pk != parties[j].pk
    ensures PartyAt(parties, parties[i].pk) == Some(parties[i])
  {
    var found := PartyAt(parties, parties[i].pk);
    assert parties[i] in parties;
    var j :| 0 <= j < |parties| && parties[j] == found.value;
    assert parties[j].pk == parties[i].pk;
  }

  lemma AllChecksAreNew(t: Alphabet, parties: seq<Party>, checks: map<nat, Verification>)
    requires forall i, j :: 0 <= i < j < |parties| ==> parties[i].pk != parties[j].pk
    requires ChecksOfFirst(t, parties, |parties|, checks)
    ensures checks == NewChecks(t, parties)
  {
    assert parties[..|parties|] == parties;
    hide FreshCheck;
    forall pk | pk in checks ensures checks[pk] == FreshCheck(t, PartyAt(parties, pk).value) {
      var i: nat :| i < |parties| && IsIdentityRequired(parties[i].role) && parties[i].pk == pk;
      FoundAt(parties, i);
      assert checks[parties[i].pk] == FreshCheck(t, parties[i]);
    }
  }

  lemma RepeatedRoles(inputs: seq<PartyInput>, roles: seq<string>)
    requires |roles| == |inputs| && forall i :: 0 <= i < |inputs| ==> roles[i] == inputs[i].role
    ensures Repeats(roles) <==> !DistinctRoles(inputs)
  {
    RepeatsExactly(roles);
    if DistinctRoles(inputs) {
      forall i, j | 0 <= i < j < |roles| ensures roles[i] != roles[j] {
        assert inputs[i].role != inputs[j].role;
      }
    } else {
      var i, j :| 0 <= i < j < |inputs| && inputs[i].role == inputs[j].role;
      assert roles[i] == roles[j];
    }
  }

  /** What set_parties checks before it touches a row. */
  method CheckedInputs(env: Env, initiatorKeys: set<string>, inputs: seq<PartyInput>)
    returns (phones: seq<string>, pins: seq<string>, fault: Option<Reason>)
    ensures fault == SetFault(env.text, initiatorKeys, inputs)
    ensures fault.None? ==> |phones| == |pins| == |inputs|
    ensures fault.None? ==> forall i :: 0 <= i < |inputs| ==>
      phones[i] == ToE164(env.text, inputs[i].phone) && pins[i] == IdNumberOf(env.text, inputs[i])
  {
    hide PhoneKeyOf, UniquePins, IdNumberOf, ToE164, CompareKey, DistinctPhones, Repeats;
    phones, pins := [], [];
    if |inputs| < 2 {
      return phones, pins, Some(TooFewParties);
    }
    var roles := seq(|inputs|, i requires 0 <= i < |inputs| => inputs[i].role);
    RepeatedRoles(inputs, roles);
    hide DistinctRoles;
    if Repeats(roles) {
      return phones, pins, Some(DuplicateRole);
    }
    var phoneFault: Option<Reason>;
    phones, phoneFault := NormalizedPhones(env.text, inputs);
    if phoneFault.Some? {
      return phones, pins, phoneFault;
    }
    var keys := set phone | phone in phones :: CompareKey(env.text, phone);
    KeysOfPhones(env.text, inputs, phones, keys);
    if initiatorKeys !! keys {
      return phones, pins, Some(InitiatorNotParty);
    }
    pins, fault := NormalizedPins(env.text, inputs);
  }

  /** The rows set_parties writes: the old parties go with what points at them, the new ones start over. */
  method WriteParties(t: Alphabet, db: Db, inputs: seq<PartyInput>, phones: seq<string>, pins: seq<string>)
    requires |phones| == |pins| == |inputs|
    requires forall i :: 0 <= i < |inputs| ==>
      phones[i] == ToE164(t, inputs[i].phone) && pins[i] == IdNumberOf(t, inputs[i])
    requires forall k :: k in db.verifications ==> k in PartyPks(db.parties)
    modifies db`parties, db`nextPk, db`records, db`verifications
    ensures db.parties == NewParties(t, old(db.nextPk), inputs) && db.nextPk == old(db.nextPk) + |inputs|
    ensures db.records == RecordsWithout(old(db.records), PartyPks(old(db.parties)))
    ensures db.verifications == NewChecks(t, db.parties)
  {
    hide NewChecks, RecordsWithout, ToE164, IdNumberOf;
    assert db.verifications - PartyPks(db.parties) == map[];
    DeleteParties(db);
    CreateParties(db, inputs, phones, pins, t);
    ResetNewParties(t, db);
  }

  /** set_parties */
  method ReplaceParties(env: Env, db: Db, initiatorKeys: set<string>, inputs: seq<PartyInput>)
    returns (outcome: Outcome)
    requires Linked(db.View())
    modifies db`parties, db`nextPk, db`records, db`verifications
    ensures Reply(db.View(), outcome) == SetParties(env, old(db.View()), initiatorKeys, inputs)
  {
    hide SetFault, NewChecks, RecordsWithout, ToE164, IdNumberOf, NewParties, RecordsLinked;
    if db.status !in {Draft, Active} {
      return Rejected(WrongStatus);
    }
    var phones, pins, fault := CheckedInputs(env, initiatorKeys, inputs);
    if fault.Some? {
      return Rejected(fault.value);
    }
    NothingLeft(db.verifications, PartyPks(db.parties), NewChecks(env.text, NewParties(env.text, db.nextPk, inputs)));
    WriteParties(env.text, db, inputs, phones, pins);
    return Done;
  }

  lemma NothingLeft(checks: map<nat, Verification>, gone: set<nat>, made: map<nat, Verification>)
    requires forall k :: k in checks ==> k in gone
    ensures (checks - gone) + made == made
  {
  }

  lemma KeysOfPhones(t: Alphabet, inputs: seq<PartyInput>, phones: seq<string>, keys: set<string>)
    requires |phones| == |inputs| && forall i :: 0 <= i < |phones| ==> phones[i] == ToE164(t, inputs[i].phone)
    requires keys == set phone | phone in phones :: CompareKey(t, phone)
    ensures keys == set input | input in inputs :: PhoneKeyOf(t, input.phone)
  {
    forall input | input in inputs ensures PhoneKeyOf(t, input.phone) in keys {
      var i :| 0 <= i < |inputs| && inputs[i] == input;
      assert phones[i] in phones;
    }
    forall phone | phone in phones
      ensures exists input <- inputs :: PhoneKeyOf(t, input.phone) == CompareKey(t, phone)
    {
      var i :| 0 <= i < |phones| && phones[i] == phone;
      assert inputs[i] in inputs;
    }
  }

  // ---- patch_parties ----

  method FindRole(parties: seq<Party>, role: string) returns (found: Option<nat>)
    ensures found == IndexOfRole(parties, role)
  {
    for i := 0 to |parties|
      invariant var rest := IndexOfRole(parties[i..], role);
        IndexOfRole(parties, role) == if rest.Some? then Some(i + rest.value) else None
    {
      if parties[i].role == role {
        return Some(i);
      }
    }
    return None;
  }

  /** One round of patch_parties' loop; it raises before it saves. */
  method PatchParty(t: Alphabet, db: Db, patch: PartyPatch) returns (fault: Option<Reason>)
    modifies db`parties, db`verifications
    ensures PatchOne(t, old(db.parties), old(db.verifications), patch) ==
      if fault.Some? then PatchFault(fault.value) else PatchDone(db.parties, db.verifications)
  {
    var found := FindRole(db.parties, patch.role);
    if found.None? {
      return Some(NoSuchRole);
    }
    var i := found.value;
    var p := db.parties[i];
    var identityChanged := false;
    if patch.fullName.Some? {
      p := p.(displayName := patch.fullName.value);
      identityChanged := true;
    }
    if patch.phone.Some? {
      var phone := ToE164(t, patch.phone.value);
      var key := CompareKey(t, phone);
      if key == "" {
        return Some(MissingPhone);
      }
      if key in OtherPhoneKeys(t, db.parties, i) {
        return Some(DuplicatePhone);
      }
      p := p.(phone := phone);
    }
    if patch.idType.Some? {
      p := p.(idType := patch.idType.value);
      identityChanged := true;
    }
    if patch.idNumber.Some? {
      p := p.(idNumber := patch.idNumber.value);
      identityChanged := true;
    }
    assert p == PatchFields(t, db.parties[i], patch);
    if patch.idType.Some? || patch.idNumber.Some? {
      var checked := CheckedIdNumber(t, patch.role, p.idType, p.idNumber);
      if checked.None? {
        return Some(BadIdentity);
      }
      if IsIdentityRequired(patch.role) && checked.value in OtherPins(t, db.parties, i) {
        return Some(DuplicatePin);
      }
      // save(update_fields=...) leaves a witness's stored number alone unless the patch names one
      if IsIdentityRequired(patch.role) || patch.idNumber.Some? {
        p := p.(idNumber := checked.value);
      }
    }
    db.parties := db.parties[i := p];
    if IsIdentityRequired(p.role) && identityChanged {
      db.verifications := WithReset(t, db.verifications, p);
    }
    return None;
  }

  /** patch_parties */
  method PatchPartiesOf(env: Env, db: Db, patches: seq<PartyPatch>) returns (outcome: Outcome)
    modifies db`parties, db`verifications
    ensures Reply(db.View(), outcome) == PatchParties(env, old(db.View()), patches)
  {
    hide PatchOne;
    if db.status !in {Draft, Active} {
      return Rejected(WrongStatus);
    }
    var parties, checks := db.parties, db.verifications;
    for i := 0 to |patches|
      invariant PatchAll(env.text, parties, checks, patches[..i]) == PatchDone(db.parties, db.verifications)
    {
      assert patches[..i + 1][..i] == patches[..i];
      var fault := PatchParty(env.text, db, patches[i]);
      if fault.Some? {
        FaultStays(env.text, parties, checks, patches, i + 1);
        db.parties, db.verifications := parties, checks;
        return Rejected(fault.value);
      }
    }
    assert patches[..|patches|] == patches;
    return Done;
  }

  lemma {:induction false} FaultStays(t: Alphabet, parties: seq<Party>, checks: map<nat, Verification>,
      patches: seq<PartyPatch>, n: nat)
    requires n <= |patches| && PatchAll(t, parties, checks, patches[..n]).PatchFault?
    ensures PatchAll(t, parties, checks, patches) == PatchAll(t, parties, checks, patches[..n])
  {
    if n == |patches| {
      assert patches[..n] == patches;
    } else {
      var front := patches[..|patches| - 1];
      assert front[..n] == patches[..n];
      FaultStays(t, parties, checks, front, n);
    }
  }
}
