/** common/phone_numbers.py: comparison keys, E.164 forms and database lookup values.
    The accepted form is the one of ITU-T E.164, clause 6: '+', a non-zero digit, at most 15 digits. */
module Phones {
  import opened Text

  predicate IsLocalForm(digits: string) {
    |digits| == 10 && digits[0] == '0'
  }

  /** normalize_phone_for_compare */
  function CompareKey(t: Alphabet, phone: string): string {
    var digits := Digits(t, phone);
    if IsLocalForm(digits) then "233" + digits[1..] else digits
  }

  /** normalize_phone_to_e164 */
  function ToE164(t: Alphabet, phone: string): string {
    var raw := Strip(t, phone);
    var digits := Digits(t, raw);
    if IsLocalForm(digits) then "+233" + digits[1..]
    else if "+" <= raw && digits != "" then "+" + digits
    else raw
  }

  /** ^\+[1-9]\d{7,14}$ as a full match */
  predicate IsE164(t: Alphabet, s: string) {
    && 9 <= |s| <= 16
    && s[0] == '+'
    && '1' <= s[1] <= '9'
    && forall i :: 2 <= i < |s| ==> t.isDecimal(s[i])
  }

  predicate IsValidInput(t: Alphabet, phone: string) {
    IsE164(t, ToE164(t, phone))
  }

  predicate SamePhone(t: Alphabet, left: string, right: string) {
    CompareKey(t, left) != "" && CompareKey(t, left) == CompareKey(t, right)
  }

  /** A number as the services store it: normalised and accepted. */
  predicate Canonical(t: Alphabet, phone: string) {
    IsE164(t, phone) && ToE164(t, phone) == phone
  }

  /** phone_lookup_values, which fills a set. */
  method PhoneLookupValues(t: Alphabet, phone: string) returns (values: set<string>)
    ensures values == LookupValues(t, phone)
  {
    var raw := Strip(t, phone);
    var e164 := ToE164(t, raw);
    var digits := CompareKey(t, raw);
    values := {raw, e164};
    if digits != "" {
      values := values + {digits};
    }
    if "233" <= digits && |digits| == 12 {
      values := values + {"0" + digits[3..]};
    }
    values := values - {""};
  }

  function LookupValues(t: Alphabet, phone: string): set<string> {
    ValuesOf(t, Strip(t, phone))
  }

  function ValuesOf(t: Alphabet, raw: string): set<string> {
    var digits := CompareKey(t, raw);
    {raw, ToE164(t, raw), digits}
      + (if "233" <= digits && |digits| == 12 then {"0" + digits[3..]} else {})
      - {""}
  }

  // ---- Normalisation ----

  lemma StripKeepsKey(t: Alphabet, phone: string)
    ensures CompareKey(t, Strip(t, phone)) == CompareKey(t, phone)
  {
    StripKeepsDigits(t, phone);
  }

  lemma DigitsOfCountryForm(t: Alphabet, d: string)
    requires IsLocalForm(d) && forall c <- d :: t.isDigit(c)
    ensures Digits(t, "233" + d[1..]) == "233" + d[1..]
    ensures Digits(t, "+233" + d[1..]) == "233" + d[1..]
  {
    DigitsOfDigits(t, "233" + d[1..]);
    assert "+233" + d[1..] == "+" + ("233" + d[1..]);
    DigitsConcat(t, "+", "233" + d[1..]);
  }

  /** Bringing a number to E.164 form keeps its comparison key. */
  lemma E164KeepsKey(t: Alphabet, phone: string)
    ensures CompareKey(t, ToE164(t, phone)) == CompareKey(t, phone)
  {
    StripKeepsDigits(t, phone);
    var d := Digits(t, phone);
    DigitsAreDigits(t, phone);
    if IsLocalForm(d) {
      DigitsOfCountryForm(t, d);
    } else {
      DigitsConcat(t, "+", d);
      DigitsOfDigits(t, d);
    }
  }

  lemma PlusFormFixed(t: Alphabet, d: string)
    requires d != "" && !IsLocalForm(d) && forall c <- d :: t.isDigit(c)
    ensures ToE164(t, "+" + d) == "+" + d
  {
    var e := "+" + d;
    StripOfTrimmed(t, e);
    DigitsConcat(t, "+", d);
    DigitsOfDigits(t, d);
    assert Digits(t, e) == d;
  }

  lemma E164Idempotent(t: Alphabet, phone: string)
    ensures ToE164(t, ToE164(t, phone)) == ToE164(t, phone)
  {
    var raw := Strip(t, phone);
    var d := Digits(t, raw);
    DigitsAreDigits(t, raw);
    if IsLocalForm(d) {
      assert "+233" + d[1..] == "+" + ("233" + d[1..]);
      PlusFormFixed(t, "233" + d[1..]);
    } else if "+" <= raw && d != "" {
      PlusFormFixed(t, d);
    } else {
      StripTrims(t, phone);
      StripOfTrimmed(t, raw);
    }
  }

  lemma KeyIdempotent(t: Alphabet, phone: string)
    ensures CompareKey(t, CompareKey(t, phone)) == CompareKey(t, phone)
  {
    var d := Digits(t, phone);
    DigitsAreDigits(t, phone);
    if IsLocalForm(d) {
      DigitsOfCountryForm(t, d);
    } else {
      DigitsOfDigits(t, d);
    }
  }

  // ---- Lookup values ----

  lemma LocalFormKey(t: Alphabet, key: string)
    requires "233" <= key && |key| == 12 && forall c <- key :: t.isDigit(c)
    ensures CompareKey(t, "0" + key[3..]) == key
  {
    var v := "0" + key[3..];
    assert forall c <- v :: t.isDigit(c);
    DigitsOfDigits(t, v);
    assert v[1..] == key[3..];
    assert key == "233" + key[3..];
  }

  lemma ValuesKeepKey(t: Alphabet, raw: string, v: string)
    requires v in ValuesOf(t, raw)
    ensures CompareKey(t, v) == CompareKey(t, raw)
  {
    var key := CompareKey(t, raw);
    DigitsAreDigits(t, raw);
    assert forall c <- key :: t.isDigit(c);
    if v == raw {
    } else if v == ToE164(t, raw) {
      E164KeepsKey(t, raw);
    } else if v == key {
      KeyIdempotent(t, raw);
    } else {
      assert v == "0" + key[3..];
      LocalFormKey(t, key);
    }
  }

  /** Every lookup value identifies the number it was made from. */
  lemma LookupValuesKeepKey(t: Alphabet, phone: string, v: string)
    requires v in LookupValues(t, phone)
    ensures CompareKey(t, v) == CompareKey(t, phone)
  {
    StripKeepsKey(t, phone);
    ValuesKeepKey(t, Strip(t, phone), v);
  }

  /** The digits of an accepted number are its comparison key. */
  lemma E164Key(t: Alphabet, s: string)
    requires IsE164(t, s)
    ensures CompareKey(t, s) == s[1..] && 8 <= |CompareKey(t, s)| <= 15
  {
    assert s == "+" + s[1..];
    DigitsConcat(t, "+", s[1..]);
    DigitsOfDigits(t, s[1..]);
  }

  /** For every accepted input and every stored number, the database lookup finds the stored
      number exactly when the two are the same phone. */
  lemma LookupFindsSamePhone(t: Alphabet, x: string, y: string)
    requires IsValidInput(t, x) && Canonical(t, y)
    ensures y in LookupValues(t, x) <==> SamePhone(t, x, y)
  {
    E164Key(t, y);
    assert y == "+" + y[1..];
    if y in LookupValues(t, x) {
      LookupValuesKeepKey(t, x, y);
    } else if SamePhone(t, x, y) {
      var e := ToE164(t, x);
      E164Key(t, e);
      E164KeepsKey(t, x);
      assert e == "+" + e[1..];
      StripTrims(t, x);
      StripOfTrimmed(t, Strip(t, x));
      assert false;
    }
  }

  // ---- What counts as the same number ----

  /** The one is the other with the leading zero for the country code. */
  predicate IsLocalOf(local: string, full: string) {
    |local| == 10 && local[0] == '0' && full == "233" + local[1..]
  }

  /** Two numbers have one key exactly if their digits are the same, or the one is the other's local form. */
  lemma SameKeyExactly(t: Alphabet, a: string, b: string)
    ensures CompareKey(t, a) == CompareKey(t, b) <==>
      var da, db := Digits(t, a), Digits(t, b);
      da == db || IsLocalOf(da, db) || IsLocalOf(db, da)
  {
    var da, db := Digits(t, a), Digits(t, b);
    hide Digits;
    if IsLocalForm(da) && IsLocalForm(db) && "233" + da[1..] == "233" + db[1..] {
      assert da == "0" + ("233" + da[1..])[3..] && db == "0" + ("233" + db[1..])[3..];
    }
  }
}
