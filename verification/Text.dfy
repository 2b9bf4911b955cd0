/** Strings as the backend's Python sees them.

    The character classes of `str.isdigit`, `\d`, `str.isspace` and `str.upper` cover all of
    Unicode.  They are a parameter here: a `CharTable` gives the classes, and `Alphabet` keeps
    the tables that agree with Unicode on the facts the proofs rest on. */
module Text {
  datatype CharTable = CharTable(
    isDigit: char -> bool,      // str.isdigit
    isDecimal: char -> bool,    // \d in a str pattern
    isSpace: char -> bool,      // what str.strip removes
    upper: char -> string       // str.upper, one character at a time
  ) {
    ghost predicate Standard() {
      && (forall c: char :: '0' <= c <= '9' ==> isDecimal(c))
      && (forall c: char :: isDecimal(c) ==> isDigit(c) && upper(c) == [c])
      && (forall c: char :: isDigit(c) ==> !isSpace(c))
      && !isDigit('+') && !isSpace('+')
      && !isDigit('-') && !isSpace('-') && upper('-') == "-"
      && (forall c: char :: 'A' <= c <= 'Z' ==> upper(c) == [c] && !isSpace(c))
      && (forall c: char :: 'a' <= c <= 'z' ==> !isSpace(c))
    }
  }

  function AsciiUpper(c: char): string {
    if 'a' <= c <= 'z' then [c - 'a' + 'A'] else [c]
  }

  function AsciiTable(): CharTable {
    CharTable(
      c => '0' <= c <= '9',
      c => '0' <= c <= '9',
      c => c == ' ' || '\t' <= c <= '\r',
      AsciiUpper)
  }

  type Alphabet = t: CharTable | t.Standard() witness AsciiTable()

  /** "".join(ch for ch in s if ch.isdigit()) */
  function Digits(t: Alphabet, s: string): string {
    if s == "" then ""
    else if t.isDigit(s[0]) then [s[0]] + Digits(t, s[1..])
    else Digits(t, s[1..])
  }

  lemma {:induction false} DigitsAreDigits(t: Alphabet, s: string)
    ensures forall c <- Digits(t, s) :: t.isDigit(c)
  {
    if s != "" {
      DigitsAreDigits(t, s[1..]);
    }
  }

  lemma {:induction false} DigitsOfDigits(t: Alphabet, s: string)
    requires forall c <- s :: t.isDigit(c)
    ensures Digits(t, s) == s
  {
    if s != "" {
      assert s == [s[0]] + s[1..];
      DigitsOfDigits(t, s[1..]);
    }
  }

  lemma {:induction false} DigitsConcat(t: Alphabet, a: string, b: string)
    ensures Digits(t, a + b) == Digits(t, a) + Digits(t, b)
  {
    if a == "" {
      assert a + b == b;
    } else {
      assert (a + b)[1..] == a[1..] + b;
      DigitsConcat(t, a[1..], b);
    }
  }

  function StripLeft(t: Alphabet, s: string): string {
    if s != "" && t.isSpace(s[0]) then StripLeft(t, s[1..]) else s
  }

  function StripRight(t: Alphabet, s: string): string {
    if s != "" && t.isSpace(s[|s| - 1]) then StripRight(t, s[..|s| - 1]) else s
  }

  /** str.strip() */
  function Strip(t: Alphabet, s: string): string {
    StripRight(t, StripLeft(t, s))
  }

  /** `not s or not s.strip()` */
  predicate Blank(t: Alphabet, s: string) {
    Strip(t, s) == ""
  }

  predicate Trimmed(t: Alphabet, s: string) {
    s == "" || (!t.isSpace(s[0]) && !t.isSpace(s[|s| - 1]))
  }

  lemma {:induction false} StripLeftTrims(t: Alphabet, s: string)
    ensures var r := StripLeft(t, s); r != "" ==> !t.isSpace(r[0])
  {
    if s != "" && t.isSpace(s[0]) {
      StripLeftTrims(t, s[1..]);
    }
  }

  lemma {:induction false} StripRightTrims(t: Alphabet, s: string)
    ensures var r := StripRight(t, s); r <= s && (r != "" ==> !t.isSpace(r[|r| - 1]))
  {
    if s != "" && t.isSpace(s[|s| - 1]) {
      StripRightTrims(t, s[..|s| - 1]);
    }
  }

  lemma StripTrims(t: Alphabet, s: string)
    ensures Trimmed(t, Strip(t, s))
  {
    var l := StripLeft(t, s);
    var r := StripRight(t, l);
    StripLeftTrims(t, s);
    StripRightTrims(t, l);
    if r != "" {
      assert r[0] == l[0];
    }
  }

  lemma {:induction false} LeftEnd(t: Alphabet, s: string) returns (i: nat)
    ensures i <= |s| && StripLeft(t, s) == s[i..] && forall k :: 0 <= k < i ==> t.isSpace(s[k])
  {
    i := 0;
    if s != "" && t.isSpace(s[0]) {
      var j := LeftEnd(t, s[1..]);
      i := j + 1;
      assert forall k :: 1 <= k < i ==> s[k] == s[1..][k - 1];
    }
  }

  lemma {:induction false} RightEnd(t: Alphabet, s: string) returns (j: nat)
    ensures j <= |s| && StripRight(t, s) == s[..j] && forall k :: j <= k < |s| ==> t.isSpace(s[k])
  {
    j := |s|;
    if s != "" && t.isSpace(s[|s| - 1]) {
      j := RightEnd(t, s[..|s| - 1]);
    }
  }

  /** Stripping leaves out spaces at both ends and nothing else. */
  lemma StripsEnds(t: Alphabet, s: string) returns (i: nat, j: nat)
    ensures i <= j <= |s| && Strip(t, s) == s[i..j] && Trimmed(t, s[i..j])
    ensures forall k :: 0 <= k < i || j <= k < |s| ==> t.isSpace(s[k])
  {
    i := LeftEnd(t, s);
    var n := RightEnd(t, s[i..]);
    j := i + n;
    StripTrims(t, s);
    assert forall k :: j <= k < |s| ==> s[k] == s[i..][k - i];
  }

  lemma StripOfTrimmed(t: Alphabet, s: string)
    requires Trimmed(t, s)
    ensures Strip(t, s) == s
  {
  }

  lemma {:induction false} StripLeftKeepsDigits(t: Alphabet, s: string)
    ensures Digits(t, StripLeft(t, s)) == Digits(t, s)
  {
    if s != "" && t.isSpace(s[0]) {
      StripLeftKeepsDigits(t, s[1..]);
    }
  }

  lemma {:induction false} StripRightKeepsDigits(t: Alphabet, s: string)
    ensures Digits(t, StripRight(t, s)) == Digits(t, s)
  {
    if s != "" && t.isSpace(s[|s| - 1]) {
      StripRightKeepsDigits(t, s[..|s| - 1]);
      assert s == s[..|s| - 1] + [s[|s| - 1]];
      DigitsConcat(t, s[..|s| - 1], [s[|s| - 1]]);
    }
  }

  lemma StripKeepsDigits(t: Alphabet, s: string)
    ensures Digits(t, Strip(t, s)) == Digits(t, s)
  {
    StripLeftKeepsDigits(t, s);
    StripRightKeepsDigits(t, StripLeft(t, s));
  }

  /** str.upper() */
  function Upper(t: Alphabet, s: string): string {
    if s == "" then "" else t.upper(s[0]) + Upper(t, s[1..])
  }

  /** Upper-casing goes character by character. */
  lemma {:induction false} UpperConcat(t: Alphabet, a: string, b: string)
    ensures Upper(t, a + b) == Upper(t, a) + Upper(t, b)
    ensures |a| == 1 ==> Upper(t, a) == t.upper(a[0])
  {
    if a == "" {
      assert a + b == b;
    } else {
      UpperConcat(t, a[1..], b);
      assert (a + b)[1..] == a[1..] + b;
    }
  }

  lemma {:induction false} UpperUnchanged(t: Alphabet, s: string)
    requires forall c <- s :: t.upper(c) == [c]
    ensures Upper(t, s) == s
  {
    if s != "" {
      assert s == [s[0]] + s[1..];
      UpperUnchanged(t, s[1..]);
    }
  }

  predicate EndsWith(s: string, suffix: string) {
    |suffix| <= |s| && s[|s| - |suffix|..] == suffix
  }

  /** The order of a database `ORDER BY` on a text column, by character code. */
  predicate TextLeq(a: string, b: string) {
    a == "" || (b != "" && (a[0] < b[0] || (a[0] == b[0] && TextLeq(a[1..], b[1..]))))
  }

  lemma {:induction false} TextLeqTotal(a: string, b: string)
    ensures TextLeq(a, b) || TextLeq(b, a)
    ensures TextLeq(a, b) && TextLeq(b, a) ==> a == b
  {
    if a != "" && b != "" && a[0] == b[0] {
      TextLeqTotal(a[1..], b[1..]);
      assert a == [a[0]] + a[1..] && b == [b[0]] + b[1..];
    }
  }

  lemma {:induction false} TextLeqTransitive(a: string, b: string, c: string)
    requires TextLeq(a, b) && TextLeq(b, c)
    ensures TextLeq(a, c)
  {
    if a != "" && a[0] == b[0] == c[0] {
      TextLeqTransitive(a[1..], b[1..], c[1..]);
    }
  }
}
