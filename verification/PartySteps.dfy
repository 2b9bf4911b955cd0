/** parties/services.py as state changes: replacing and patching an agreement's parties. */
module PartySteps {
  import opened Wrappers
  import opened Text
  import opened Lifecycle
  import opened Rows
  import opened Phones
  import opened PartyIdentity
  import opened IdentitySteps

  datatype PartyInput = PartyInput(role: string, fullName: string, phone: string, idType: string, idNumber: string)

  datatype PartyPatch = PartyPatch(
    role: string, fullName: Option<string>, phone: Option<string>,
    idType: Option<string>, idNumber: Option<string>)

  predicate Editable(status: Status) {
    status in {Draft, Active}
  }

  function PhoneKeyOf(t: Alphabet, phone: string): string {
    CompareKey(t, ToE164(t, phone))
  }

  // ---- set_parties ----

  ghost predicate DistinctRoles(inputs: seq<PartyInput>) {
    forall i, j :: 0 <= i < j < |inputs| ==> inputs[i].role != inputs[j].role
  }

  ghost predicate DistinctPhones(t: Alphabet, inputs: seq<PartyInput>) {
    forall i, j :: 0 <= i < j < |inputs| ==> PhoneKeyOf(t, inputs[i].phone) != PhoneKeyOf(t, inputs[j].phone)
  }

  /** _require_identity_fields and validate_party_identity_input for one entry. */
  function IdentityFault(t: Alphabet, input: PartyInput): Option<Reason> {
    if Blank(t, input.idType) || Blank(t, input.idNumber) then Some(MissingIdentity)
    else if CheckedIdNumber(t, input.role, Strip(t, input.idType), input.idNumber).None? then Some(BadIdentity)
    else None
  }

  function FirstIdentityFault(t: Alphabet, inputs: seq<PartyInput>): (r: Option<Reason>)
    ensures r.None? <==> forall input <- inputs :: IdentityFault(t, input).None?
  {
    if inputs == [] then None
    else if IdentityFault(t, inputs[0]).Some? then IdentityFault(t, inputs[0])
    else FirstIdentityFault(t, inputs[1..])
  }

  function IdNumberOf(t: Alphabet, input: PartyInput): string {
    var checked := CheckedIdNumber(t, input.role, Strip(t, input.idType), input.idNumber);
    if checked.Some? then checked.value else ""
  }

  ghost predicate SamePin(t: Alphabet, a: PartyInput, b: PartyInput) {
    && IsIdentityRequired(a.role) && IsIdentityRequired(b.role)
    && NormalizePin(t, IdNumberOf(t, a)) != ""
    && NormalizePin(t, IdNumberOf(t, a)) == NormalizePin(t, IdNumberOf(t, b))
  }

  /** ensure_unique_pins */
  ghost predicate UniquePins(t: Alphabet, inputs: seq<PartyInput>) {
    forall i, j :: 0 <= i < j < |inputs| ==> !SamePin(t, inputs[i], inputs[j])
  }

  /** Why set_parties refuses its list, in the order it checks. */
  ghost function SetFault(t: Alphabet, initiatorKeys: set<string>, inputs: seq<PartyInput>): Option<Reason> {
    var keys := set input | input in inputs :: PhoneKeyOf(t, input.phone);
    if |inputs| < 2 then Some(TooFewParties)
    else if !DistinctRoles(inputs) then Some(DuplicateRole)
    else if "" in keys then Some(MissingPhone)
    else if !DistinctPhones(t, inputs) then Some(DuplicatePhone)
    else if initiatorKeys !! keys then Some(InitiatorNotParty)
    else if FirstIdentityFault(t, inputs).Some? then FirstIdentityFault(t, inputs)
    else if !UniquePins(t, inputs) then Some(DuplicatePin)
    else None
  }

  function NewParty(t: Alphabet, pk: nat, input: PartyInput): Party {
    Party(pk, input.role, input.fullName, ToE164(t, input.phone), input.idType, IdNumberOf(t, input))
  }

  function NewParties(t: Alphabet, base: nat, inputs: seq<PartyInput>): (r: seq<Party>)
    ensures |r| == |inputs|
  {
    seq(|inputs|, i requires 0 <= i < |inputs| => NewParty(t, base + i, inputs[i]))
  }

  function CardHolders(parties: seq<Party>): set<nat> {
    set p | p in parties && IsIdentityRequired(p.role) :: p.pk
  }

  /** The verification rows of newly created parties. */
  function NewChecks(t: Alphabet, parties: seq<Party>): map<nat, Verification> {
    map pk | pk in CardHolders(parties) :: FreshCheck(t, PartyAt(parties, pk).value)
  }

  /** Deleting parties deletes the rows that point at them. */
  function RecordsWithout(records: map<nat, Record>, gone: set<nat>): map<nat, Record> {
    map k | k in records && records[k].party !in gone :: records[k]
  }

  ghost function SetParties(env: Env, s: State, initiatorKeys: set<string>, inputs: seq<PartyInput>): (reply: Reply)
    ensures reply.state == s.(
      parties := reply.state.parties, nextPk := reply.state.nextPk,
      records := reply.state.records, verifications := reply.state.verifications)
    ensures reply.outcome.Rejected? ==> reply.state == s
  {
    if !Editable(s.status) then Reject(s, WrongStatus) else
    var fault := SetFault(env.text, initiatorKeys, inputs);
    if fault.Some? then Reject(s, fault.value) else
    var created := NewParties(env.text, s.nextPk, inputs);
    var gone := PartyPks(s.parties);
    Reply(s.(parties := created, nextPk := s.nextPk + |inputs|,
             records := RecordsWithout(s.records, gone),
             verifications := (s.verifications - gone) + NewChecks(env.text, created)), Done)
  }

  // ---- patch_parties ----

  function IndexOfRole(parties: seq<Party>, role: string): (r: Option<nat>)
    ensures r.Some? ==> r.value < |parties| && parties[r.value].role == role
    ensures r.None? ==> role !in PartyRoles(parties)
  {
    if parties == [] then None
    else if parties[0].role == role then Some(0)
    else
      var r := IndexOfRole(parties[1..], role);
      if r.Some? then Some(r.value + 1) else None
  }

  /** The phone keys of every other party. */
  function OtherPhoneKeys(t: Alphabet, parties: seq<Party>, i: nat): set<string> {
    set j | 0 <= j < |parties| && j != i :: CompareKey(t, parties[j].phone)
  }

  /** The card numbers of every other party who needs one and has one. */
  function OtherPins(t: Alphabet, parties: seq<Party>, i: nat): set<string> {
    set j | 0 <= j < |parties| && j != i && IsIdentityRequired(parties[j].role) && parties[j].idNumber != ""
      :: NormalizePin(t, parties[j].idNumber)
  }

  datatype Patched = PatchFault(reason: Reason) | PatchDone(parties: seq<Party>, checks: map<nat, Verification>)

  function PatchPhone(t: Alphabet, parties: seq<Party>, i: nat, patch: PartyPatch): Option<Reason> {
    if patch.phone.None? then None
    else if PhoneKeyOf(t, patch.phone.value) == "" then Some(MissingPhone)
    else if PhoneKeyOf(t, patch.phone.value) in OtherPhoneKeys(t, parties, i) then Some(DuplicatePhone)
    else None
  }

  /** The row with the plain fields of a patch written in; the card number is not yet checked. */
  function PatchFields(t: Alphabet, p: Party, patch: PartyPatch): Party {
    p.(displayName := if patch.fullName.Some? then patch.fullName.value else p.displayName,
       phone := if patch.phone.Some? then ToE164(t, patch.phone.value) else p.phone,
       idType := if patch.idType.Some? then patch.idType.value else p.idType,
       idNumber := if patch.idNumber.Some? then patch.idNumber.value else p.idNumber)
  }

  function PatchOne(t: Alphabet, parties: seq<Party>, checks: map<nat, Verification>, patch: PartyPatch): Patched {
    var found := IndexOfRole(parties, patch.role);
    if found.None? then PatchFault(NoSuchRole) else
    var i := found.value;
    var phoneFault := PatchPhone(t, parties, i, patch);
    if phoneFault.Some? then PatchFault(phoneFault.value) else
    var p := PatchFields(t, parties[i], patch);
    var touchesCard := patch.idType.Some? || patch.idNumber.Some?;
    var checked := CheckedIdNumber(t, patch.role, p.idType, p.idNumber);
    if touchesCard && checked.None? then PatchFault(BadIdentity) else
    if touchesCard && IsIdentityRequired(patch.role) && checked.value in OtherPins(t, parties, i)
    then PatchFault(DuplicatePin) else
    // a witness keeps the stored number unless the patch names one
    var saved := if touchesCard && (IsIdentityRequired(patch.role) || patch.idNumber.Some?)
      then p.(idNumber := checked.value) else p;
    var resets := IsIdentityRequired(patch.role) && (patch.fullName.Some? || touchesCard);
    PatchDone(parties[i := saved], if resets then WithReset(t, checks, saved) else checks)
  }

  function PatchAll(t: Alphabet, parties: seq<Party>, checks: map<nat, Verification>,
      patches: seq<PartyPatch>): Patched {
    if patches == [] then PatchDone(parties, checks) else
    var last := |patches| - 1;
    var before := PatchAll(t, parties, checks, patches[..last]);
    if before.PatchFault? then before
    else PatchOne(t, before.parties, before.checks, patches[last])
  }

  ghost function PatchParties(env: Env, s: State, patches: seq<PartyPatch>): (reply: Reply)
    ensures reply.state == s.(parties := reply.state.parties, verifications := reply.state.verifications)
    ensures reply.outcome.Rejected? ==> reply.state == s
  {
    if !Editable(s.status) then Reject(s, WrongStatus) else
    var r := PatchAll(env.text, s.parties, s.verifications, patches);
    if r.PatchFault? then Reject(s, r.reason)
    else Reply(s.(parties := r.parties, verifications := r.checks), Done)
  }

  /** AgreementService.add_party, the older one-party path; (agreement, role) is unique. */
  ghost function AddParty(s: State, role: string, displayName: string, identityExists: bool): (reply: Reply)
    ensures reply.state == s.(parties := reply.state.parties, nextPk := reply.state.nextPk)
    ensures reply.outcome.Rejected? ==> reply.state == s
  {
    if s.status != Draft then Reject(s, WrongStatus)
    else if !identityExists then Reject(s, NoSuchIdentity)
    else if role in PartyRoles(s.parties) then Reject(s, IntegrityError)
    else Reply(s.(parties := s.parties + [Party(s.nextPk, role, displayName, "", "", "")],
                  nextPk := s.nextPk + 1), Done)
  }
}
