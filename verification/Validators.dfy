/** agreements/domain/validators.py: the business rules checked before sealing. */
module Validators {
  import opened Text
  import opened Rows
  import opened PartyIdentity

  const USED_VEHICLE_SALE := "used_vehicle_sale"
  const ROOM_RENTAL := "room_rental"

  function RequiredRoles(scenario: string): set<string> {
    if scenario == USED_VEHICLE_SALE then {"buyer", "seller"}
    else if scenario == ROOM_RENTAL then {"landlord", "tenant"}
    else {}
  }

  /** Confirmed items whose type starts with the prefix. */
  function CountConfirmed(items: seq<Evidence>, prefix: string): nat {
    if items == [] then 0
    else
      var e := items[|items| - 1];
      CountConfirmed(items[..|items| - 1], prefix) + if e.confirmed && prefix <= e.kind then 1 else 0
  }

  ghost predicate PhotoMinimumMet(scenario: string, items: seq<Evidence>) {
    && (scenario == USED_VEHICLE_SALE ==> CountConfirmed(items, "vehicle_photo") >= 3)
    && (scenario == ROOM_RENTAL ==> CountConfirmed(items, "property_photo") >= 2)
  }

  /** The card of a party who needs one. */
  predicate CardValid(t: Alphabet, p: Party) {
    p.idType == "ghana_card" && IsValidPin(t, p.idNumber)
  }

  /** Two parties who need a card show the same number. */
  ghost predicate Clash(t: Alphabet, p: Party, q: Party) {
    && IsIdentityRequired(p.role) && IsIdentityRequired(q.role)
    && NormalizePin(t, p.idNumber) == NormalizePin(t, q.idNumber)
  }

  ghost predicate CardsDistinct(t: Alphabet, parties: seq<Party>) {
    forall i, j :: 0 <= i < j < |parties| ==> !Clash(t, parties[i], parties[j])
  }

  ghost predicate CardsValid(t: Alphabet, parties: seq<Party>) {
    && (forall p <- parties :: IsIdentityRequired(p.role) ==> CardValid(t, p))
    && CardsDistinct(t, parties)
  }

  ghost predicate IdentityShown(p: Party, items: seq<Evidence>, checks: map<nat, Verification>) {
    && LatestFor(items, p.role, "front").Some?
    && LatestFor(items, p.role, "back").Some?
    && p.pk in checks
    && checks[p.pk].status == Verified
    && (LatestFor(items, p.role, "selfie").Some? || checks[p.pk].livenessStatus == "passed")
  }

  ghost predicate AgreementValid(
    t: Alphabet, terms: Terms, parties: seq<Party>, items: seq<Evidence>, checks: map<nat, Verification>)
  {
    && !Blank(t, terms.title) && !Blank(t, terms.scenario)
    && |parties| >= 2 && RequiredRoles(terms.scenario) <= PartyRoles(parties)
    && CardsValid(t, parties)
    && (forall p <- parties :: IsIdentityRequired(p.role) ==> IdentityShown(p, items, checks))
    && PhotoMinimumMet(terms.scenario, items)
  }

  // ---- The checks as the module runs them: each appends its error codes ----

  method CheckCoreFields(t: Alphabet, terms: Terms) returns (errors: seq<string>)
    ensures errors == [] <==> !Blank(t, terms.title) && !Blank(t, terms.scenario)
  {
    errors := [];
    if Blank(t, terms.title) {
      errors := errors + ["MISSING_TITLE"];
    }
    if Blank(t, terms.scenario) {
      errors := errors + ["MISSING_SCENARIO_TEMPLATE"];
    }
  }

  method CheckParties(terms: Terms, parties: seq<Party>) returns (errors: seq<string>)
    ensures errors == [] <==> |parties| >= 2 && RequiredRoles(terms.scenario) <= PartyRoles(parties)
  {
    var roles := set p | p in parties :: p.role;
    if |parties| < 2 {
      return ["INSUFFICIENT_PARTIES"];
    }
    if !(RequiredRoles(terms.scenario) <= roles) {
      return ["MISSING_REQUIRED_ROLES"];
    }
    return [];
  }

  /** A loop that skips with `continue` and fills a dictionary of the numbers seen. */
  method CheckIdentityBaseline(t: Alphabet, parties: seq<Party>) returns (errors: seq<string>)
    ensures errors == [] <==> CardsValid(t, parties)
  {
    errors := [];
    var seen: map<string, string> := map[];
    for i := 0 to |parties|
      invariant errors == [] <==> CardsValid(t, parties[..i])
      invariant errors == [] ==> forall pin :: pin in seen <==>
        exists p <- parties[..i] :: IsIdentityRequired(p.role) && NormalizePin(t, p.idNumber) == pin
    {
      var p := parties[i];
      assert parties[..i + 1] == parties[..i] + [p];
      CardsOfPrefix(t, parties[..i], p);
      if !IsIdentityRequired(p.role) {
        continue;
      }
      if p.idType == "" || p.idNumber == "" {
        errors := errors + ["MISSING_GHANA_CARD_PIN"];
        EmptyIsNoPin(t);
        continue;
      }
      if p.idType != "ghana_card" || !IsValidPin(t, p.idNumber) {
        errors := errors + ["INVALID_GHANA_CARD_PIN"];
        continue;
      }
      var pin := NormalizePin(t, p.idNumber);
      if pin in seen {
        errors := errors + ["DUPLICATE_GHANA_CARD_PIN"];
        continue;
      }
      seen := seen[pin := p.role];
    }
    assert parties[..|parties|] == parties;
  }

  lemma EmptyIsNoPin(t: Alphabet)
    ensures !IsValidPin(t, "")
  {
  }

  lemma CardsOfPrefix(t: Alphabet, front: seq<Party>, p: Party)
    ensures CardsValid(t, front + [p]) <==>
      && CardsValid(t, front)
      && (IsIdentityRequired(p.role) ==> CardValid(t, p))
      && forall q <- front :: !Clash(t, q, p)
  {
    var all := front + [p];
    assert forall q :: q in all <==> q in front || q == p;
    if CardsValid(t, all) {
      forall i, j | 0 <= i < j < |front| ensures !Clash(t, front[i], front[j]) {
        assert !Clash(t, all[i], all[j]);
      }
      forall q | q in front ensures !Clash(t, q, p) {
        var i :| 0 <= i < |front| && front[i] == q;
        assert !Clash(t, all[i], all[|front|]);
      }
    }
    if CardsValid(t, front) && forall q <- front :: !Clash(t, q, p) {
      forall i, j | 0 <= i < j < |all| ensures !Clash(t, all[i], all[j]) {
        if j < |front| {
          assert !Clash(t, front[i], front[j]);
        } else {
          assert front[i] in front;
        }
      }
    }
  }

  /** PartyIdentityState, the fields this check reads. */
  datatype IdentityState = IdentityState(
    front: bool, back: bool, selfie: bool, status: CheckStatus, liveness: string)

  method BuildPartyIdentityStates(parties: seq<Party>, items: seq<Evidence>, checks: map<nat, Verification>)
    returns (states: map<string, IdentityState>)
    requires forall i, j :: 0 <= i < j < |parties| ==> parties[i].role != parties[j].role
    ensures forall p <- parties :: IsIdentityRequired(p.role) ==>
      p.role in states && states[p.role] == StateOf(p, items, checks)
  {
    var latest := LatestIdentityEvidenceByParty(parties, items);
    states := map[];
    for i := 0 to |parties|
      invariant forall p <- parties[..i] :: IsIdentityRequired(p.role) ==>
        p.role in states && states[p.role] == StateOf(p, items, checks)
    {
      var p := parties[i];
      assert parties[..i + 1] == parties[..i] + [p];
      if !IsIdentityRequired(p.role) {
        continue;
      }
      assert p.role in PartyRoles(parties);
      var slots := latest[p.role];
      assert SIDES[0] == "front" && SIDES[1] == "back" && SIDES[2] == "selfie";
      states := states[p.role := IdentityState(
          "front" in slots, "back" in slots, "selfie" in slots,
          if p.pk in checks then checks[p.pk].status else Pending,
          if p.pk in checks then checks[p.pk].livenessStatus else "")];
    }
    assert parties[..|parties|] == parties;
  }

  function StateOf(p: Party, items: seq<Evidence>, checks: map<nat, Verification>): IdentityState {
    IdentityState(
      LatestFor(items, p.role, "front").Some?,
      LatestFor(items, p.role, "back").Some?,
      LatestFor(items, p.role, "selfie").Some?,
      if p.pk in checks then checks[p.pk].status else Pending,
      if p.pk in checks then checks[p.pk].livenessStatus else "")
  }

  method CheckPartyGhanaCardUploads(
    parties: seq<Party>, states: map<string, IdentityState>,
    ghost items: seq<Evidence>, ghost checks: map<nat, Verification>)
    returns (errors: seq<string>)
    requires forall p <- parties :: IsIdentityRequired(p.role) ==>
      p.role in states && states[p.role] == StateOf(p, items, checks)
    ensures errors == [] <==>
      forall p <- parties :: IsIdentityRequired(p.role) ==> IdentityShown(p, items, checks)
  {
    errors := [];
    for i := 0 to |parties|
      invariant errors == [] <==>
        forall p <- parties[..i] :: IsIdentityRequired(p.role) ==> IdentityShown(p, items, checks)
    {
      var p := parties[i];
      assert parties[..i + 1] == parties[..i] + [p];
      if !IsIdentityRequired(p.role) {
        continue;
      }
      var state := states[p.role];
      if !state.front {
        errors := errors + ["MISSING_GHANA_CARD_FRONT"];
      }
      if !state.back {
        errors := errors + ["MISSING_GHANA_CARD_BACK"];
        continue;
      }
      if !state.selfie && state.liveness != "passed" {
        errors := errors + ["MISSING_IDENTITY_SELFIE"];
        continue;
      }
      if state.status == Verified {
        continue;
      }
      if state.status == Pending || state.status == Processing {
        errors := errors + ["GHANA_CARD_VERIFICATION_PENDING"];
        continue;
      }
      if state.status == ManualReview {
        errors := errors + ["GHANA_CARD_REVIEW_REQUIRED"];
        continue;
      }
      errors := errors + ["GHANA_CARD_VERIFICATION_FAILED"];
    }
    assert parties[..|parties|] == parties;
  }

  method CheckScenario(scenario: string, items: seq<Evidence>) returns (errors: seq<string>)
    ensures errors == [] <==> PhotoMinimumMet(scenario, items)
  {
    errors := [];
    if scenario == USED_VEHICLE_SALE {
      if CountConfirmed(items, "vehicle_photo") < 3 {
        errors := ["INSUFFICIENT_VEHICLE_PHOTOS"];
      }
    } else if scenario == ROOM_RENTAL {
      if CountConfirmed(items, "property_photo") < 2 {
        errors := ["INSUFFICIENT_PROPERTY_PHOTOS"];
      }
    }
  }

  /** validate_agreement: it reports no error exactly on the agreements that meet every rule.
      The database keeps one party per role. */
  method ValidateAgreement(
    t: Alphabet, terms: Terms, parties: seq<Party>, items: seq<Evidence>, checks: map<nat, Verification>)
    returns (errors: seq<string>)
    requires forall i, j :: 0 <= i < j < |parties| ==> parties[i].role != parties[j].role
    ensures errors == [] <==> AgreementValid(t, terms, parties, items, checks)
  {
    var core := CheckCoreFields(t, terms);
    var people := CheckParties(terms, parties);
    var baseline := CheckIdentityBaseline(t, parties);
    var states := BuildPartyIdentityStates(parties, items, checks);
    var uploads := CheckPartyGhanaCardUploads(parties, states, items, checks);
    var scenario := CheckScenario(terms.scenario, items);
    errors := core + people + baseline + uploads + scenario;
  }
}
