/** What sealing asks for, rule by rule on the rows: the two rules of each scenario, the identity of each
    party, and the consent of a pending agreement. */
module ValidityTheorems {
  import opened Wrappers
  import opened Text
  import opened Lifecycle
  import opened Rows
  import opened Policies
  import opened PartyIdentity
  import opened Validators
  import opened SealSteps
  import opened Protocol
  import opened SealTheorems

  // ---- The rules ----

  /** The confirmed items whose type starts with the prefix. */
  function Photos(items: seq<Evidence>, prefix: string): set<nat> {
    set i: nat | i < |items| && items[i].confirmed && prefix <= items[i].kind
  }

  lemma PhotosOfMore(items: seq<Evidence>, prefix: string)
    requires items != []
    ensures var last := |items| - 1;
      var before := Photos(items[..last], prefix);
      && last !in before
      && Photos(items, prefix) == before + if items[last].confirmed && prefix <= items[last].kind then {last} else {}
  {
    var front := items[..|items| - 1];
    assert forall i :: 0 <= i < |front| ==> front[i] == items[i];
  }

  lemma {:induction false} CountsPhotos(items: seq<Evidence>, prefix: string)
    ensures CountConfirmed(items, prefix) == |Photos(items, prefix)|
  {
    if items == [] {
      assert Photos(items, prefix) == {};
    } else {
      var last := |items| - 1;
      var front := items[..last];
      CountsPhotos(front, prefix);
      PhotosOfMore(items, prefix);
      hide Photos;
    }
  }

  ghost predicate HasRole(parties: seq<Party>, role: string) {
    exists i :: 0 <= i < |parties| && parties[i].role == role
  }

  /** A vehicle sale has a buyer, a seller and three photos; a room rental a landlord, a tenant and two. */
  ghost predicate SceneComplete(scenario: string, parties: seq<Party>, items: seq<Evidence>) {
    && (scenario == "used_vehicle_sale" ==>
          HasRole(parties, "buyer") && HasRole(parties, "seller") && |Photos(items, "vehicle_photo")| >= 3)
    && (scenario == "room_rental" ==>
          HasRole(parties, "landlord") && HasRole(parties, "tenant") && |Photos(items, "property_photo")| >= 2)
  }

  /** There is a confirmed item of the type that the role's side is called. */
  ghost predicate HasSide(items: seq<Evidence>, role: string, side: string) {
    exists i :: 0 <= i < |items| && items[i].confirmed && IdentityEvidenceType(role, side) == Some(items[i].kind)
  }

  /** Unless a witness, the party has a valid card, pictures of both sides, a face and a passed check. */
  ghost predicate IdentityProved(t: Alphabet, p: Party, items: seq<Evidence>, checks: map<nat, Verification>) {
    p.role == "witness" || (
      && p.idType == "ghana_card" && IsPin(t, NormalizePin(t, p.idNumber))
      && HasSide(items, p.role, "front") && HasSide(items, p.role, "back")
      && p.pk in checks && checks[p.pk].status == Verified
      && (HasSide(items, p.role, "selfie") || checks[p.pk].livenessStatus == "passed"))
  }

  ghost predicate Sealable(env: Env, s: State) {
    && Strip(env.text, s.terms.title) != "" && Strip(env.text, s.terms.scenario) != ""
    && |s.parties| >= 2 && SceneComplete(s.terms.scenario, s.parties, s.evidence)
    && (forall i :: 0 <= i < |s.parties| ==> IdentityProved(env.text, s.parties[i], s.evidence, s.verifications))
    && (forall i, j :: 0 <= i < j < |s.parties| && s.parties[i].role != "witness" && s.parties[j].role != "witness" ==>
          NormalizePin(env.text, s.parties[i].idNumber) != NormalizePin(env.text, s.parties[j].idNumber))
  }

  lemma RoleIsIn(parties: seq<Party>, role: string)
    ensures HasRole(parties, role) <==> role in PartyRoles(parties)
  {
    if role in PartyRoles(parties) {
      var p :| p in parties && p.role == role;
      var i :| 0 <= i < |parties| && parties[i] == p;
    }
  }

  lemma SideIsShown(items: seq<Evidence>, role: string, side: string)
    ensures HasSide(items, role, side) <==> LatestFor(items, role, side).Some?
  {
    hide ParseEvidenceType, IdentityEvidenceType, LatestFor;
    if HasSide(items, role, side) {
      var i :| 0 <= i < |items| && items[i].confirmed && IdentityEvidenceType(role, side) == Some(items[i].kind);
      ParseInvertsFormat(items[i].kind, role, side);
      assert FillsSlot(items[i], role, side);
    }
    if LatestFor(items, role, side).Some? {
      var e := LatestFor(items, role, side).value;
      ParseInvertsFormat(e.kind, role, side);
      var i :| 0 <= i < |items| && items[i] == e;
    }
  }

  lemma SceneIsMet(scenario: string, parties: seq<Party>, items: seq<Evidence>)
    ensures SceneComplete(scenario, parties, items) <==>
      RequiredRoles(scenario) <= PartyRoles(parties) && PhotoMinimumMet(scenario, items)
  {
    hide HasRole, Photos, CountConfirmed;
    RoleIsIn(parties, "buyer");
    RoleIsIn(parties, "seller");
    RoleIsIn(parties, "landlord");
    RoleIsIn(parties, "tenant");
    CountsPhotos(items, "vehicle_photo");
    CountsPhotos(items, "property_photo");
  }

  lemma IdentityIsShown(t: Alphabet, p: Party, items: seq<Evidence>, checks: map<nat, Verification>)
    ensures IdentityProved(t, p, items, checks) <==>
      (IsIdentityRequired(p.role) ==> CardValid(t, p) && IdentityShown(p, items, checks))
  {
    hide LatestFor, HasSide, NormalizePin, IsPin;
    SideIsShown(items, p.role, "front");
    SideIsShown(items, p.role, "back");
    SideIsShown(items, p.role, "selfie");
  }

  /** The validation reports nothing exactly if those rules are met. */
  lemma ValidExactly(env: Env, s: State)
    ensures ValidNow(env, s) <==> Sealable(env, s)
  {
    hide Strip, NormalizePin, SceneComplete, IdentityProved, PhotoMinimumMet, RequiredRoles, CardValid, IdentityShown;
    SceneIsMet(s.terms.scenario, s.parties, s.evidence);
    forall i | 0 <= i < |s.parties|
      ensures s.parties[i] in s.parties
      ensures IdentityProved(env.text, s.parties[i], s.evidence, s.verifications) <==>
        (IsIdentityRequired(s.parties[i].role) ==>
           CardValid(env.text, s.parties[i]) && IdentityShown(s.parties[i], s.evidence, s.verifications))
    {
      IdentityIsShown(env.text, s.parties[i], s.evidence, s.verifications);
    }
  }

  // ---- Sealing ----

  /** The newest consent record of the party is granted. */
  ghost predicate Consents(records: map<nat, Record>, party: nat, r: nat) {
    && r in records && records[r].party == party && records[r].purpose == ForConsent && records[r].granted
    && forall k :: k in records && k != r && records[k].party == party && records[k].purpose == ForConsent ==>
      records[k].createdAt < records[r].createdAt || (records[k].createdAt == records[r].createdAt && k < r)
  }

  ghost predicate HasConsent(records: map<nat, Record>, party: nat) {
    exists r: nat :: Consents(records, party, r)
  }

  ghost predicate EveryoneConsents(s: State) {
    |s.parties| > 0 && forall i :: 0 <= i < |s.parties| ==> HasConsent(s.records, s.parties[i].pk)
  }

  lemma ConsentsIsLatest(records: map<nat, Record>, party: nat)
    ensures HasConsent(records, party) <==> PartyConsented(records, party)
  {
    if PartyConsented(records, party) {
      var r :| r in records && records[r].party == party && records[r].purpose == ForConsent
        && records[r].granted && IsLatest(records, r);
      assert Consents(records, party, r);
    }
    if r: nat :| Consents(records, party, r) {
      assert IsLatest(records, r);
    }
  }

  lemma EveryoneIsAll(s: State)
    ensures EveryoneConsents(s) <==> AllPartiesConsented(s)
  {
    hide PartyConsented, HasConsent;
    forall i | 0 <= i < |s.parties|
      ensures s.parties[i] in s.parties
      ensures HasConsent(s.records, s.parties[i].pk) <==> PartyConsented(s.records, s.parties[i].pk)
    {
      ConsentsIsLatest(s.records, s.parties[i].pk);
    }
    if EveryoneConsents(s) {
      forall p | p in s.parties ensures PartyConsented(s.records, p.pk) {
        var i :| 0 <= i < |s.parties| && s.parties[i] == p;
      }
    }
  }

  /** Sealing goes through exactly if the plan allows it, the agreement is pending with everyone's consent, or
      active, some evidence is confirmed and the rules are met; it then covers the rows of that moment. */
  lemma SealsExactly(env: Env, s: State, planAllows: bool)
    ensures Seal(env, s, planAllows).outcome == Done <==>
      && planAllows
      && (s.status == Active || (s.status == PendingConsent && EveryoneConsents(s)))
      && (exists i :: 0 <= i < |s.evidence| && s.evidence[i].confirmed)
      && Sealable(env, s)
    ensures var reply := Seal(env, s, planAllows);
      reply.outcome == Done ==>
        reply.state == s.(status := Sealed, sealedAt := Some(s.now), sealHash := env.digest(PayloadNow(env, s)))
  {
    hide Sealable, ValidNow, EveryoneConsents, AllPartiesConsented, PayloadNow;
    ValidExactly(env, s);
    EveryoneIsAll(s);
    if HasConfirmedEvidence(s.evidence) {
      var e :| e in s.evidence && e.confirmed;
      var i :| 0 <= i < |s.evidence| && s.evidence[i] == e;
    }
  }

  /** Every agreement that holds a seal met the rules when it was sealed. */
  lemma SealedWasSealable(env: Env, tr: Trace, n: nat) returns (k: nat)
    requires tr.Valid(env) && n < |tr.states| && SealHeld(tr.states[n].status)
    ensures k < n && SealsAt(env, tr, k) && HeldSince(env, tr, k, n) && Sealable(env, tr.states[k])
  {
    hide Apply, Sealable;
    k := SealOf(env, tr, n);
    SealsExactly(env, tr.states[k], tr.actions[k].planAllows);
    SealApplied(env, tr.states[k], tr.actions[k]);
  }
}
