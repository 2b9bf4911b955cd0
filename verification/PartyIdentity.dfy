/** parties/identity.py: Ghana Card numbers, identity evidence types and the latest evidence of
    each identity slot. */
module PartyIdentity {
  import opened Wrappers
  import opened Text
  import opened Rows

  // ---- Card numbers ----

  predicate IsIdentityRequired(role: string) {
    role != "witness"
  }

  /** normalize_ghana_card_pin */
  function NormalizePin(t: Alphabet, value: string): string {
    Upper(t, Strip(t, value))
  }

  /** ^GHA-\d{9}-\d$ */
  predicate IsPin(t: Alphabet, s: string) {
    && |s| == 15
    && s[..4] == "GHA-" && s[13] == '-' && t.isDecimal(s[14])
    && forall i :: 4 <= i < 13 ==> t.isDecimal(s[i])
  }

  predicate IsValidPin(t: Alphabet, value: string) {
    IsPin(t, NormalizePin(t, value))
  }

  /** It is GHA, nine digits and one, with hyphens between. */
  lemma PinExactly(t: Alphabet, s: string)
    ensures IsPin(t, s) <==>
      && |s| == 15 && s == "GHA-" + s[4..13] + "-" + s[14..]
      && (forall c <- s[4..13] :: t.isDecimal(c)) && (forall c <- s[14..] :: t.isDecimal(c))
  {
    if |s| == 15 {
      assert s == s[..4] + s[4..13] + s[13..14] + s[14..];
      assert s[14..] == [s[14]] && s[13..14] == [s[13]];
      assert forall i :: 4 <= i < 13 ==> s[i] == s[4..13][i - 4];
      if s == "GHA-" + s[4..13] + "-" + s[14..] {
        assert s[..4] == "GHA-" && s[13] == ("GHA-" + s[4..13] + "-" + s[14..])[13];
      }
    }
  }

  /** A card number in normal form is its own normal form. */
  lemma PinIsNormal(t: Alphabet, s: string)
    requires IsPin(t, s)
    ensures NormalizePin(t, s) == s
  {
    assert s[0] == "GHA-"[0] && s[1] == "GHA-"[1] && s[2] == "GHA-"[2] && s[3] == "GHA-"[3];
    StripOfTrimmed(t, s);
    UpperUnchanged(t, s);
  }

  /** validate_party_identity_input; None is its DomainError. */
  function CheckedIdNumber(t: Alphabet, role: string, idType: string, idNumber: string): (r: Option<string>) {
    if !IsIdentityRequired(role) then Some(Strip(t, idNumber))
    else if idType == "ghana_card" && IsValidPin(t, idNumber) then Some(NormalizePin(t, idNumber))
    else None
  }

  // ---- Evidence types ----

  const SUPPORTED_ROLES := {"buyer", "seller", "landlord", "tenant"}

  /** identity_evidence_type; None is its ValueError. */
  function IdentityEvidenceType(role: string, side: string): Option<string> {
    if role !in SUPPORTED_ROLES then None
    else if side == "selfie" then Some(role + "_selfie")
    else if side == "front" || side == "back" then Some(role + "_ghana_card_" + side)
    else None
  }

  /** The names of the three pictures of each of the four roles. */
  lemma FormatsExactly(role: string, side: string, kind: string)
    ensures IdentityEvidenceType(role, side) == Some(kind) <==>
      && role in {"buyer", "seller", "landlord", "tenant"} && side in {"front", "back", "selfie"}
      && kind == role + if side == "selfie" then "_selfie" else "_ghana_card_" + side
  {
    assert role + "_ghana_card_" + side == role + ("_ghana_card_" + side);
  }

  function ParseSuffix(kind: string, suffix: string, side: string): Option<(string, string)> {
    if EndsWith(kind, suffix) && kind[..|kind| - |suffix|] in SUPPORTED_ROLES
    then Some((kind[..|kind| - |suffix|], side))
    else None
  }

  /** parse_identity_evidence_type tries the three suffixes in turn. */
  function ParseEvidenceType(kind: string): Option<(string, string)> {
    var front := ParseSuffix(kind, "_ghana_card_front", "front");
    if front.Some? then front else
    var back := ParseSuffix(kind, "_ghana_card_back", "back");
    if back.Some? then back else
    ParseSuffix(kind, "_selfie", "selfie")
  }

  lemma LastChar(a: string, b: string)
    requires b != ""
    ensures (a + b)[|a + b| - 1] == b[|b| - 1]
  {
  }

  /** Parsing and formatting are inverse, over every string and every role and side. */
  lemma ParseInvertsFormat(kind: string, role: string, side: string)
    ensures ParseEvidenceType(kind) == Some((role, side)) <==> IdentityEvidenceType(role, side) == Some(kind)
  {
    if IdentityEvidenceType(role, side) == Some(kind) {
      ParseOfFormat(kind, role, side);
    }
    if ParseEvidenceType(kind) == Some((role, side)) {
      FormatOfParse(kind, role, side);
    }
  }

  lemma ParseOfFormat(kind: string, role: string, side: string)
    requires IdentityEvidenceType(role, side) == Some(kind)
    ensures ParseEvidenceType(kind) == Some((role, side))
  {
    var f, b, s := "_ghana_card_front", "_ghana_card_back", "_selfie";
    var suffix := if side == "front" then f else if side == "back" then b else s;
    assert kind == role + suffix by {
      if side == "front" {
        assert role + "_ghana_card_" + side == role + f;
      } else if side == "back" {
        assert role + "_ghana_card_" + side == role + b;
      }
    }
    assert kind[..|kind| - |suffix|] == role && kind[|kind| - |suffix|..] == suffix;
    LastChar(role, suffix);
    assert kind[|kind| - 1] == suffix[|suffix| - 1];
    assert f[|f| - 1] == 't' && b[|b| - 1] == 'k' && s[|s| - 1] == 'e';
  }

  lemma FormatOfParse(kind: string, role: string, side: string)
    requires ParseEvidenceType(kind) == Some((role, side))
    ensures IdentityEvidenceType(role, side) == Some(kind)
  {
    var f, b, s := "_ghana_card_front", "_ghana_card_back", "_selfie";
    if side == "front" {
      assert kind == role + f;
      assert role + "_ghana_card_" + side == role + f;
    } else if side == "back" {
      assert kind == role + b;
      assert role + "_ghana_card_" + side == role + b;
    } else {
      assert kind == role + s;
    }
  }

  // ---- Latest evidence per slot ----

  predicate FillsSlot(e: Evidence, role: string, side: string) {
    e.confirmed && ParseEvidenceType(e.kind) == Some((role, side))
  }

  /** The item a slot shows: the highest key among its confirmed items. */
  function LatestFor(items: seq<Evidence>, role: string, side: string): (r: Option<Evidence>)
    ensures r.Some? ==> r.value in items && FillsSlot(r.value, role, side)
    ensures forall e <- items :: FillsSlot(e, role, side) ==> r.Some? && e.pk <= r.value.pk
  {
    if items == [] then None
    else
      var e := items[|items| - 1];
      var r := LatestFor(items[..|items| - 1], role, side);
      if FillsSlot(e, role, side) && (r.None? || e.pk > r.value.pk) then Some(e) else r
  }

  ghost predicate DistinctEvidencePks(items: seq<Evidence>) {
    forall i, j :: 0 <= i < j < |items| ==> items[i].pk != items[j].pk
  }

  /** The slot's item does not depend on the order of the items. */
  lemma LatestIgnoresOrder(a: seq<Evidence>, b: seq<Evidence>, role: string, side: string)
    requires multiset(a) == multiset(b) && DistinctEvidencePks(a)
    ensures LatestFor(a, role, side) == LatestFor(b, role, side)
  {
    var ra, rb := LatestFor(a, role, side), LatestFor(b, role, side);
    forall e ensures e in a <==> e in b {
      assert e in a <==> e in multiset(a);
      assert e in b <==> e in multiset(b);
    }
    if ra.Some? {
      assert ra.value in b && FillsSlot(ra.value, role, side);
      assert rb.value in a;
      var i :| 0 <= i < |a| && a[i] == ra.value;
      var j :| 0 <= j < |a| && a[j] == rb.value;
      assert a[i].pk == a[j].pk;
    }
  }

  const SIDES := ["front", "back", "selfie"]

  lemma LatestWithOneMore(items: seq<Evidence>, i: nat, role: string, side: string)
    requires i < |items|
    ensures var r, e := LatestFor(items[..i], role, side), items[i];
      LatestFor(items[..i + 1], role, side) ==
        if FillsSlot(e, role, side) && (r.None? || e.pk > r.value.pk) then Some(e) else r
  {
    assert items[..i + 1][..i] == items[..i];
  }

  /** The first pass of latest_identity_evidence_by_party: the latest item of every slot. */
  method LatestBySlot(items: seq<Evidence>) returns (latest: map<(string, string), Evidence>)
    ensures forall role, side :: (role, side) in latest <==> LatestFor(items, role, side).Some?
    ensures forall role, side :: (role, side) in latest ==> LatestFor(items, role, side) == Some(latest[(role, side)])
  {
    latest := map[];
    for i := 0 to |items|
      invariant forall role, side :: (role, side) in latest <==> LatestFor(items[..i], role, side).Some?
      invariant forall role, side :: (role, side) in latest ==>
        LatestFor(items[..i], role, side) == Some(latest[(role, side)])
    {
      hide LatestFor, ParseEvidenceType;
      var item := items[i];
      forall role, side ensures var r := LatestFor(items[..i], role, side);
        LatestFor(items[..i + 1], role, side) ==
          if FillsSlot(item, role, side) && (r.None? || item.pk > r.value.pk) then Some(item) else r
      {
        LatestWithOneMore(items, i, role, side);
      }
      var parsed := ParseEvidenceType(item.kind);
      if !item.confirmed || parsed.None? {
        continue;
      }
      var slot := parsed.value;
      assert forall role, side :: FillsSlot(item, role, side) <==> (role, side) == slot;
      if slot !in latest || item.pk > latest[slot].pk {
        latest := latest[slot := item];
      }
    }
    assert items[..|items|] == items;
  }

  method SidesOf(latest: map<(string, string), Evidence>, role: string) returns (sides: map<string, Evidence>)
    ensures forall side :: side in sides <==> side in SIDES && (role, side) in latest
    ensures forall side :: side in sides ==> sides[side] == latest[(role, side)]
  {
    sides := map[];
    for j := 0 to |SIDES|
      invariant forall side :: side in sides <==> side in SIDES[..j] && (role, side) in latest
      invariant forall side :: side in sides ==> sides[side] == latest[(role, side)]
    {
      if (role, SIDES[j]) in latest {
        sides := sides[SIDES[j] := latest[(role, SIDES[j])]];
      }
    }
    assert SIDES[..|SIDES|] == SIDES;
  }

  /** latest_identity_evidence_by_party: one pass fills a slot map, a second picks each party's sides. */
  method LatestIdentityEvidenceByParty(parties: seq<Party>, items: seq<Evidence>)
    returns (result: map<string, map<string, Evidence>>)
    ensures forall role :: role in result <==> IsIdentityRequired(role) && role in PartyRoles(parties)
    ensures forall role, side :: role in result ==>
      (side in result[role] <==> side in SIDES && LatestFor(items, role, side).Some?)
    ensures forall role, side :: role in result && side in result[role] ==>
      LatestFor(items, role, side) == Some(result[role][side])
  {
    var latest := LatestBySlot(items);
    result := map[];
    for i := 0 to |parties|
      invariant forall role :: role in result <==> IsIdentityRequired(role) && role in PartyRoles(parties[..i])
      invariant forall role, side :: role in result ==>
        (side in result[role] <==> side in SIDES && (role, side) in latest)
      invariant forall role, side :: role in result && side in result[role] ==>
        (role, side) in latest && result[role][side] == latest[(role, side)]
    {
      var role := parties[i].role;
      assert parties[..i + 1] == parties[..i] + [parties[i]];
      if !IsIdentityRequired(role) {
        continue;
      }
      var sides := SidesOf(latest, role);
      result := result[role := sides];
    }
    assert parties[..|parties|] == parties;
  }
}
