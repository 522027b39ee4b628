/**
 * The few Kotlin standard-library string operations the app relies on:
 * `Char.isDigit`, `Char.isWhitespace`, `String.isBlank`, `String.trim`,
 * `Char.uppercaseChar`, `CharSequence.contains(other, ignoreCase = true)`
 * and `Int.toString()`.
 *
 * Kotlin's character classes are Unicode-wide; here they are restricted:
 * digits are the ASCII digits, whitespace is the ASCII whitespace, and case
 * is folded for the basic Latin letters A-Z and the Cyrillic letters
 * U+0400-U+045F only.
 */
module Text {

  /** `Char.isDigit`, on the ASCII digits. */
  predicate IsDigit(c: char) {
    '0' <= c <= '9'
  }

  predicate AllDigits(s: string) {
    forall i :: 0 <= i < |s| ==> IsDigit(s[i])
  }

  /** `Char.isWhitespace`, on ASCII: tab, line feed, vertical tab, form feed, carriage return, the four separators and space. */
  predicate IsWhitespace(c: char) {
    9 <= c as int <= 13 || 28 <= c as int <= 32
  }

  /** `String.isBlank`: empty, or whitespace only. */
  predicate IsBlank(s: string) {
    forall i :: 0 <= i < |s| ==> IsWhitespace(s[i])
  }

  /** `String.trimStart`: drops the leading whitespace. */
  function TrimStart(s: string): (r: string)
    ensures |r| <= |s| && r == s[|s| - |r|..]
    ensures IsBlank(s[..|s| - |r|])
    ensures r != [] ==> !IsWhitespace(r[0])
  {
    if s != [] && IsWhitespace(s[0]) then
      var tail := s[1..];
      var r := TrimStart(tail);
      var k := |tail| - |r|;
      assert tail[k..] == s[k + 1..];
      assert s[..k + 1] == [s[0]] + tail[..k];
      BlankAppend([s[0]], tail[..k]);
      r
    else s
  }

  /** `String.trimEnd`: drops the trailing whitespace. */
  function TrimEnd(s: string): (r: string)
    ensures |r| <= |s| && r == s[..|r|]
    ensures IsBlank(s[|r|..])
    ensures r != [] ==> !IsWhitespace(r[|r| - 1])
  {
    if s != [] && IsWhitespace(s[|s| - 1]) then
      var p := s[..|s| - 1];
      var r := TrimEnd(p);
      assert p[..|r|] == s[..|r|];
      assert s[|r|..] == p[|r|..] + [s[|s| - 1]];
      BlankAppend(p[|r|..], [s[|s| - 1]]);
      r
    else s
  }

  /** A concatenation is blank exactly when both parts are. */
  lemma BlankAppend(a: string, b: string)
    ensures IsBlank(a + b) <==> IsBlank(a) && IsBlank(b)
  {
    if IsBlank(a) && IsBlank(b) {
      forall i | 0 <= i < |a + b| ensures IsWhitespace((a + b)[i]) {
        if i < |a| { assert (a + b)[i] == a[i]; } else { assert (a + b)[i] == b[i - |a|]; }
      }
    }
    if IsBlank(a + b) {
      forall i | 0 <= i < |a| ensures IsWhitespace(a[i]) { assert (a + b)[i] == a[i]; }
      forall i | 0 <= i < |b| ensures IsWhitespace(b[i]) { assert (a + b)[|a| + i] == b[i]; }
    }
  }

  /** `String.trim`: the longest infix that neither starts nor ends with whitespace. */
  function Trim(s: string): (r: string)
    ensures r != [] ==> !IsWhitespace(r[0]) && !IsWhitespace(r[|r| - 1])
    ensures r == [] <==> IsBlank(s)
    ensures (s == [] || (!IsWhitespace(s[0]) && !IsWhitespace(s[|s| - 1]))) ==> r == s
  {
    TrimKeepsNoEdges(s);
    TrimEmptyIffBlank(s);
    TrimUnchanged(s);
    TrimEnd(TrimStart(s))
  }

  /** How many leading characters `trim` drops. */
  function LeadingBlanks(s: string): nat {
    |s| - |TrimStart(s)|
  }

  /** A prefix of a suffix is an infix. */
  lemma PrefixOfSuffix(s: string, t: string, r: string, a: nat)
    requires a <= |s| && t == s[a..] && |r| <= |t| && r == t[..|r|]
    ensures a + |r| <= |s| && r == s[a..a + |r|]
  {
  }

  /** What `trim` keeps is the slice of its input that starts after the leading blanks. */
  lemma TrimIsInfix(s: string)
    ensures var r := Trim(s);
            var a := LeadingBlanks(s);
            a + |r| <= |s| && r == s[a..a + |r|]
  {
    PrefixOfSuffix(s, TrimStart(s), TrimEnd(TrimStart(s)), LeadingBlanks(s));
  }

  /** What `trim` drops, on either side of the slice it keeps, is blank. */
  lemma TrimDropsBlanks(s: string)
    ensures var r := Trim(s);
            var a := LeadingBlanks(s);
            a + |r| <= |s| && IsBlank(s[..a]) && IsBlank(s[a + |r|..])
  {
    var t := TrimStart(s);
    var r := TrimEnd(t);
    var a := LeadingBlanks(s);
    assert s[a + |r|..] == t[|r|..];
  }

  lemma TrimKeepsNoEdges(s: string)
    ensures var r := TrimEnd(TrimStart(s));
            r != [] ==> !IsWhitespace(r[0]) && !IsWhitespace(r[|r| - 1])
  {
    var t := TrimStart(s);
    var r := TrimEnd(t);
    if r != [] {
      assert r[0] == t[0];
    }
  }

  lemma TrimEmptyIffBlank(s: string)
    ensures TrimEnd(TrimStart(s)) == [] <==> IsBlank(s)
  {
    var t := TrimStart(s);
    var r := TrimEnd(t);
    if t != [] {
      // The first character kept is not whitespace, so `s` is not blank.
      assert s[|s| - |t|] == t[0];
    }
    if r == [] {
      // All of `t` was trailing whitespace, yet it cannot start with any: it is empty, and `s` was all leading whitespace.
      assert t == [] by { assert t[|r|..] == t; }
      assert s[..|s| - |t|] == s;
    }
  }

  lemma TrimUnchanged(s: string)
    ensures (s == [] || (!IsWhitespace(s[0]) && !IsWhitespace(s[|s| - 1]))) ==> TrimEnd(TrimStart(s)) == s
  {
    if s != [] && !IsWhitespace(s[0]) && !IsWhitespace(s[|s| - 1]) {
      assert TrimStart(s) == s;
    }
  }

  /** The upper-case letters folded here: A-Z and the Cyrillic capitals U+0400-U+042F. */
  predicate IsUpperLetter(c: char) {
    'A' <= c <= 'Z' || 0x0400 <= c as int <= 0x042F
  }

  /** The lower-case letters folded here: a-z and the Cyrillic small letters U+0430-U+045F. */
  predicate IsLowerLetter(c: char) {
    'a' <= c <= 'z' || 0x0430 <= c as int <= 0x045F
  }

  /** `Char.lowercaseChar`, on the letters `IsUpperLetter` names; every other character is kept. */
  function LowerChar(c: char): (r: char)
    ensures IsUpperLetter(c) ==> IsLowerLetter(r)
    ensures !IsUpperLetter(c) ==> r == c
  {
    if 'A' <= c <= 'Z' then (c as int + 32) as char
    else if 0x0410 <= c as int <= 0x042F then (c as int + 32) as char
    else if 0x0400 <= c as int <= 0x040F then (c as int + 80) as char
    else c
  }

  /** `Char.uppercaseChar`, on the letters `IsLowerLetter` names; every other character is kept. */
  function UpperChar(c: char): (r: char)
    ensures IsLowerLetter(c) ==> IsUpperLetter(r)
    ensures !IsLowerLetter(c) ==> r == c
  {
    if 'a' <= c <= 'z' then (c as int - 32) as char
    else if 0x0430 <= c as int <= 0x044F then (c as int - 32) as char
    else if 0x0450 <= c as int <= 0x045F then (c as int - 80) as char
    else c
  }

  /** Lower- and upper-casing are inverse on the letters they fold. */
  lemma CaseFoldRoundTrip(c: char)
    ensures IsUpperLetter(c) ==> UpperChar(LowerChar(c)) == c
    ensures IsLowerLetter(c) ==> LowerChar(UpperChar(c)) == c
  {
  }

  /** `Char.equals(other, ignoreCase = true)`. */
  predicate SameIgnoringCase(a: char, b: char) {
    LowerChar(a) == LowerChar(b)
  }

  /** `needle` occurs in `hay` at position `i`, ignoring case. */
  ghost predicate OccursAt(hay: string, needle: string, i: int) {
    0 <= i && i + |needle| <= |hay| &&
    forall k :: 0 <= k < |needle| ==> SameIgnoringCase(hay[i + k], needle[k])
  }

  /** `hay.startsWith(needle, ignoreCase = true)`. */
  predicate StartsWithIgnoringCase(hay: string, needle: string) {
    |needle| <= |hay| && forall k :: 0 <= k < |needle| ==> SameIgnoringCase(hay[k], needle[k])
  }

  /** `hay.contains(needle, ignoreCase = true)`: tries every start position from the left. */
  predicate ContainsIgnoringCase(hay: string, needle: string)
    ensures ContainsIgnoringCase(hay, needle) ==> |needle| <= |hay|
    ensures needle == [] ==> ContainsIgnoringCase(hay, needle)
    decreases |hay|
  {
    |needle| <= |hay| &&
    (StartsWithIgnoringCase(hay, needle) || (hay != [] && ContainsIgnoringCase(hay[1..], needle)))
  }

  /** The search succeeds exactly when the needle occurs somewhere in the haystack. */
  lemma {:induction false} ContainsIgnoringCaseIff(hay: string, needle: string)
    ensures ContainsIgnoringCase(hay, needle) <==> exists i :: OccursAt(hay, needle, i)
    decreases |hay|
  {
    if ContainsIgnoringCase(hay, needle) {
      if StartsWithIgnoringCase(hay, needle) {
        assert OccursAt(hay, needle, 0);
      } else {
        ContainsIgnoringCaseIff(hay[1..], needle);
        var i :| OccursAt(hay[1..], needle, i);
        assert OccursAt(hay, needle, i + 1);
      }
    }
    if i :| OccursAt(hay, needle, i) {
      if i == 0 {
        assert StartsWithIgnoringCase(hay, needle);
      } else {
        assert OccursAt(hay[1..], needle, i - 1);
        ContainsIgnoringCaseIff(hay[1..], needle);
      }
    }
  }

  function DigitChar(d: int): (c: char)
    requires 0 <= d < 10
    ensures IsDigit(c)
  {
    ('0' as int + d) as char
  }

  function DigitValue(c: char): (d: int)
    requires IsDigit(c)
    ensures 0 <= d < 10 && DigitChar(d) == c
  {
    c as int - '0' as int
  }

  /** `Int.toString()` on a non-negative number: its decimal digits, without leading zeros. */
  function NatToString(n: nat): (s: string)
    ensures s != [] && AllDigits(s)
    ensures |s| > 1 ==> s[0] != '0'
    decreases n
  {
    if n < 10 then [DigitChar(n)] else NatToString(n / 10) + [DigitChar(n % 10)]
  }

  /** `Int.toString()`: a minus sign in front of a negative number. */
  function IntToString(i: int): (s: string)
    ensures s != []
    ensures i >= 0 ==> s == NatToString(i)
    ensures i < 0 ==> s == "-" + NatToString(-i)
  {
    if i < 0 then "-" + NatToString(-i) else NatToString(i)
  }

  /** The value of a string of decimal digits. */
  function ParseNat(s: string): nat
    requires AllDigits(s)
    decreases |s|
  {
    if s == [] then 0 else 10 * ParseNat(s[..|s| - 1]) + DigitValue(s[|s| - 1])
  }

  /** Rendering a number in decimal loses nothing: reading it back gives the number. */
  lemma {:induction false} ParseNatToString(n: nat)
    ensures ParseNat(NatToString(n)) == n
    decreases n
  {
    var s := NatToString(n);
    if n >= 10 {
      ParseNatToString(n / 10);
      assert s[..|s| - 1] == NatToString(n / 10);
    }
  }

  /** Distinct numbers render as distinct strings. */
  lemma NatToStringInjective(m: nat, n: nat)
    ensures NatToString(m) == NatToString(n) ==> m == n
  {
    ParseNatToString(m);
    ParseNatToString(n);
  }
}
