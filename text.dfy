/**
 * String primitives the site scripts rely on, written out over `seq<char>`:
 * prefix/suffix/substring tests, ASCII lower-casing, whitespace trimming,
 * splitting on a separator, and decimal rendering and parsing of integers
 * (`String(n)` and `parseInt(s, 10)`).
 */
module Text {
  import opened Wrappers

  predicate StartsWith(s: string, prefix: string) {
    |prefix| <= |s| && s[..|prefix|] == prefix
  }

  predicate EndsWith(s: string, suffix: string) {
    |suffix| <= |s| && s[|s| - |suffix|..] == suffix
  }

  /** `s.includes(sub)`: `sub` occurs somewhere in `s`. */
  predicate Contains(s: string, sub: string)
    decreases |s|
  {
    |sub| <= |s| && (s[..|sub|] == sub || Contains(s[1..], sub))
  }

  /** An occurrence at a known offset is found by `Contains`. */
  lemma {:induction false} ContainsAt(s: string, sub: string, i: nat)
    requires i + |sub| <= |s| && s[i..i + |sub|] == sub
    ensures Contains(s, sub)
    decreases i
  {
    if i > 0 {
      assert s[1..][i - 1..i - 1 + |sub|] == s[i..i + |sub|];
      ContainsAt(s[1..], sub, i - 1);
    }
  }

  /** `Contains` finds an occurrence at some offset. */
  lemma {:induction false} ContainsWitness(s: string, sub: string) returns (i: nat)
    requires Contains(s, sub)
    ensures i + |sub| <= |s| && s[i..i + |sub|] == sub
    decreases |s|
  {
    if s[..|sub|] == sub {
      i := 0;
    } else {
      var j := ContainsWitness(s[1..], sub);
      assert s[1..][j..j + |sub|] == s[j + 1..j + 1 + |sub|];
      i := j + 1;
    }
  }

  /** A string that contains `a + b` contains `b`. */
  lemma {:induction false} ContainsSuffixPart(s: string, a: string, b: string)
    requires Contains(s, a + b)
    ensures Contains(s, b)
    decreases |s|
  {
    if s[..|a + b|] == a + b {
      assert s[|a|..|a| + |b|] == (a + b)[|a|..];
      ContainsAt(s, b, |a|);
    } else {
      ContainsSuffixPart(s[1..], a, b);
    }
  }

  /** An occurrence that does not start at a leading character other than its own first one survives dropping that character. */
  lemma ContainsDropFirst(s: string, sub: string)
    requires Contains(s, sub) && |sub| > 0 && |s| > 0 && s[0] != sub[0]
    ensures Contains(s[1..], sub)
  {
  }

  /** An occurrence that cannot end at the last character survives dropping it. */
  lemma {:induction false} ContainsDropLast(s: string, sub: string)
    requires Contains(s, sub) && |sub| > 0 && s[|s| - 1] != sub[|sub| - 1]
    ensures Contains(s[..|s| - 1], sub)
    decreases |s|
  {
    var init := s[..|s| - 1];
    if s[..|sub|] == sub {
      assert |sub| < |s|;
      assert init[..|sub|] == sub;
    } else {
      ContainsDropLast(s[1..], sub);
      assert s[1..][..|s| - 2] == init[1..];
    }
  }

  /** ASCII lower-casing of one character (`toLowerCase` beyond ASCII is not modelled). */
  function LowerChar(c: char): (r: char)
    ensures 'A' <= c <= 'Z' ==> r as int == c as int + 32
    ensures !('A' <= c <= 'Z') ==> r == c
  {
    if 'A' <= c <= 'Z' then (c as int + 32) as char else c
  }

  function ToLower(s: string): (r: string)
    ensures |r| == |s|
    ensures forall i :: 0 <= i < |s| ==> r[i] == LowerChar(s[i])
  {
    seq(|s|, i requires 0 <= i < |s| => LowerChar(s[i]))
  }

  /** Lower-casing commutes with slicing. */
  lemma ToLowerSlice(s: string, i: nat, j: nat)
    requires i <= j <= |s|
    ensures ToLower(s)[i..j] == ToLower(s[i..j])
  {
  }

  /** The whitespace `trim` and `\s` recognise, restricted to ASCII. */
  predicate IsSpace(c: char) {
    c == ' ' || c == '\t' || c == '\n' || c == '\r' || c as int == 11 || c as int == 12
  }

  predicate AllSpace(s: string) {
    forall i :: 0 <= i < |s| ==> IsSpace(s[i])
  }

  /** Drops leading whitespace: what is left is a suffix of `s` whose first character is not a space. */
  function TrimStart(s: string): (r: string)
    ensures |r| <= |s| && s[|s| - |r|..] == r
    ensures AllSpace(s[..|s| - |r|])
    ensures r == [] || !IsSpace(r[0])
    decreases |s|
  {
    if |s| > 0 && IsSpace(s[0]) then TrimStart(s[1..]) else s
  }

  /** Drops trailing whitespace: what is left is a prefix of `s` whose last character is not a space. */
  function TrimEnd(s: string): (r: string)
    ensures |r| <= |s| && s[..|r|] == r
    ensures AllSpace(s[|r|..])
    ensures r == [] || !IsSpace(r[|r| - 1])
    decreases |s|
  {
    if |s| > 0 && IsSpace(s[|s| - 1]) then TrimEnd(s[..|s| - 1]) else s
  }

  /** `s.trim()`: `s` is the result wrapped in two runs of whitespace. */
  function Trim(s: string): (r: string)
    ensures exists k :: 0 <= k <= |s| - |r| && s[k..k + |r|] == r && AllSpace(s[..k]) && AllSpace(s[k + |r|..])
    ensures r == [] || (!IsSpace(r[0]) && !IsSpace(r[|r| - 1]))
  {
    var t := TrimStart(s);
    var r := TrimEnd(t);
    var k := |s| - |t|;
    assert s[k..k + |r|] == t[..|r|];
    assert s[k + |r|..] == t[|r|..];
    r
  }

  /** A marker that neither starts nor ends with whitespace, found in a lower-cased string, is still there after trimming. */
  lemma {:induction false} MarkerSurvivesTrimStart(u: string, marker: string)
    requires |marker| > 0 && !IsSpace(marker[0])
    requires Contains(ToLower(u), marker)
    ensures Contains(ToLower(TrimStart(u)), marker)
    decreases |u|
  {
    if |u| > 0 && IsSpace(u[0]) {
      ContainsDropFirst(ToLower(u), marker);
      ToLowerSlice(u, 1, |u|);
      assert ToLower(u)[1..] == ToLower(u[1..]);
      MarkerSurvivesTrimStart(u[1..], marker);
    }
  }

  lemma {:induction false} MarkerSurvivesTrimEnd(u: string, marker: string)
    requires |marker| > 0 && !IsSpace(marker[|marker| - 1])
    requires Contains(ToLower(u), marker)
    ensures Contains(ToLower(TrimEnd(u)), marker)
    decreases |u|
  {
    if |u| > 0 && IsSpace(u[|u| - 1]) {
      ContainsDropLast(ToLower(u), marker);
      ToLowerSlice(u, 0, |u| - 1);
      assert ToLower(u)[..|u| - 1] == ToLower(u[..|u| - 1]);
      MarkerSurvivesTrimEnd(u[..|u| - 1], marker);
    }
  }

  lemma MarkerSurvivesTrim(u: string, marker: string)
    requires |marker| > 0 && !IsSpace(marker[0]) && !IsSpace(marker[|marker| - 1])
    requires Contains(ToLower(u), marker)
    ensures Contains(ToLower(Trim(u)), marker)
  {
    MarkerSurvivesTrimStart(u, marker);
    MarkerSurvivesTrimEnd(TrimStart(u), marker);
  }

  /** `s.split(sep)` on a one-character separator. */
  function Split(s: string, sep: char): (parts: seq<string>)
    ensures |parts| >= 1
    ensures forall i :: 0 <= i < |parts| ==> sep !in parts[i]
    ensures Join(parts, sep) == s
    decreases |s|
  {
    if |s| == 0 then [""]
    else
      var rest := Split(s[1..], sep);
      if s[0] == sep then
        assert [s[0]] + s[1..] == s;
        [""] + rest
      else
        var parts := [[s[0]] + rest[0]] + rest[1..];
        assert parts[1..] == rest[1..];
        assert s == [s[0]] + s[1..];
        if |rest| == 1 then parts
        else
          assert Join(rest, sep) == rest[0] + [sep] + Join(rest[1..], sep);
          parts
  }

  /** `parts.join(sep)`: the inverse of `Split`. */
  function Join(parts: seq<string>, sep: char): string
    requires |parts| >= 1
  {
    if |parts| == 1 then parts[0] else parts[0] + [sep] + Join(parts[1..], sep)
  }

  /** Splitting at a separator that ends the first part. */
  lemma {:induction false} SplitAtFirst(p: string, rest: string, sep: char)
    requires sep !in p
    ensures Split(p + [sep] + rest, sep) == [p] + Split(rest, sep)
    decreases |p|
  {
    var s := p + [sep] + rest;
    if |p| == 0 {
      assert s[1..] == rest;
    } else {
      assert s[1..] == p[1..] + [sep] + rest;
      SplitAtFirst(p[1..], rest, sep);
      assert [p[0]] + p[1..] == p;
    }
  }

  /** A string with no separator splits into itself. */
  lemma {:induction false} SplitNoSeparator(p: string, sep: char)
    requires sep !in p
    ensures Split(p, sep) == [p]
    decreases |p|
  {
    if |p| > 0 {
      SplitNoSeparator(p[1..], sep);
      assert [p[0]] + p[1..] == p;
    }
  }

  /** `filter(Boolean)` on strings: keeps the non-empty ones, in order. */
  function NonEmpty(parts: seq<string>): (r: seq<string>)
    ensures forall i :: 0 <= i < |r| ==> r[i] != "" && r[i] in parts
    ensures |r| <= |parts|
  {
    if |parts| == 0 then []
    else if parts[0] == "" then NonEmpty(parts[1..])
    else [parts[0]] + NonEmpty(parts[1..])
  }

  /** Nothing non-empty is dropped. */
  lemma {:induction false} NonEmptyKeepsAll(parts: seq<string>, p: string)
    requires p in parts && p != ""
    ensures p in NonEmpty(parts)
    decreases |parts|
  {
    if parts[0] != p {
      assert p in parts[1..];
      NonEmptyKeepsAll(parts[1..], p);
    }
  }

  /** Filtering two runs of strings one after the other gives the two results in that order. */
  lemma {:induction false} NonEmptyConcat(a: seq<string>, b: seq<string>)
    ensures NonEmpty(a + b) == NonEmpty(a) + NonEmpty(b)
    decreases |a|
  {
    if a == [] {
      assert a + b == b;
    } else {
      assert (a + b)[0] == a[0];
      assert (a + b)[1..] == a[1..] + b;
      NonEmptyConcat(a[1..], b);
    }
  }

  /** One string is kept exactly when it is not empty. */
  lemma NonEmptySingle(p: string)
    ensures NonEmpty([p]) == if p == "" then [] else [p]
  {
    assert [p][1..] == [];
  }

  /** The lines of a text, joined by newlines (`lines.join('\n')`). */
  function JoinLines(lines: seq<string>): string {
    if |lines| == 0 then "" else Join(lines, '\n')
  }

  // ----- decimal integers -----

  predicate IsDigit(c: char) {
    '0' <= c <= '9'
  }

  function DigitChar(d: nat): (c: char)
    requires d < 10
    ensures IsDigit(c) && c as int - '0' as int == d
  {
    ('0' as int + d) as char
  }

  /** `String(n)` for a non-negative integer: its decimal digits, no leading zeros. */
  function NatToString(n: nat): (s: string)
    ensures |s| >= 1
    ensures forall i :: 0 <= i < |s| ==> IsDigit(s[i])
    ensures |s| > 1 ==> s[0] != '0'
  {
    if n < 10 then [DigitChar(n)] else NatToString(n / 10) + [DigitChar(n % 10)]
  }

  /** `String(i)` for any integer. */
  function IntToString(i: int): (s: string)
    ensures |s| >= 1
    ensures i < 0 <==> s[0] == '-'
  {
    if i < 0 then "-" + NatToString(-i) else NatToString(i)
  }

  /** The value of a run of decimal digits, read left to right. */
  function DigitsValue(s: string): nat
    requires forall i :: 0 <= i < |s| ==> IsDigit(s[i])
  {
    if |s| == 0 then 0
    else
      assert IsDigit(s[|s| - 1]);
      10 * DigitsValue(s[..|s| - 1]) + (s[|s| - 1] as int - '0' as int)
  }

  /** The longest prefix of `s` made of decimal digits. */
  function DigitPrefix(s: string): (r: string)
    ensures |r| <= |s| && s[..|r|] == r
    ensures forall i :: 0 <= i < |r| ==> IsDigit(s[i])
    ensures |r| < |s| ==> !IsDigit(s[|r|])
  {
    if |s| > 0 && IsDigit(s[0]) then [s[0]] + DigitPrefix(s[1..]) else []
  }

  /** The value of the longest run of digits at the start of `u`; `None` when there is none. */
  function ParseDigits(u: string): (r: Option<int>)
    ensures r.None? <==> (|u| == 0 || !IsDigit(u[0]))
    ensures r.Some? ==> r.value >= 0
  {
    var digits := DigitPrefix(u);
    if |digits| == 0 then None else Some(DigitsValue(digits))
  }

  /** `-x`, and `NaN` stays `NaN`. */
  function Negate(v: Option<int>): (r: Option<int>)
    ensures v.None? ==> r == None
    ensures v.Some? ==> r == Some(0 - v.value)
  {
    match v
    case None => None
    case Some(x) => Some(0 - x)
  }

  /** An optional sign, then digits: a leading `-` negates, a leading `+` is skipped. */
  function ParseSigned(t: string): Option<int> {
    if |t| > 0 && t[0] == '-' then Negate(ParseDigits(t[1..]))
    else if |t| > 0 && t[0] == '+' then ParseDigits(t[1..])
    else ParseDigits(t)
  }

  /**
   * `parseInt(s, 10)`: skips leading whitespace, reads an optional sign and then
   * the longest run of decimal digits; `None` stands for `NaN` (no digit at all).
   */
  function ParseInt(s: string): Option<int> {
    ParseSigned(TrimStart(s))
  }

  /** Reading back the digits of `NatToString(n)` gives `n`. */
  lemma {:induction false} DigitsValueOfNatToString(n: nat)
    ensures DigitsValue(NatToString(n)) == n
  {
    var s := NatToString(n);
    if n >= 10 {
      DigitsValueOfNatToString(n / 10);
      assert s[..|s| - 1] == NatToString(n / 10);
    }
  }

  /** A string made only of digits is its own digit prefix. */
  lemma {:induction false} DigitPrefixOfDigits(s: string)
    requires forall i :: 0 <= i < |s| ==> IsDigit(s[i])
    ensures DigitPrefix(s) == s
    decreases |s|
  {
    if |s| > 0 {
      DigitPrefixOfDigits(s[1..]);
      assert s == [s[0]] + s[1..];
    }
  }

  /** A run of digits reads as its value. */
  lemma ParseDigitsOfDigits(digits: string)
    requires |digits| >= 1 && forall i :: 0 <= i < |digits| ==> IsDigit(digits[i])
    ensures ParseDigits(digits) == Some(DigitsValue(digits))
  {
    DigitPrefixOfDigits(digits);
  }

  /** Text that does not start with whitespace is its own `TrimStart`. */
  lemma TrimStartOfNonSpace(t: string)
    requires |t| > 0 && !IsSpace(t[0])
    ensures TrimStart(t) == t
  {
  }

  /** Text starting with neither whitespace nor a sign parses as its leading digits. */
  lemma ParseIntUnsigned(t: string)
    requires |t| > 0 && !IsSpace(t[0]) && t[0] != '-' && t[0] != '+'
    ensures ParseInt(t) == ParseDigits(t)
  {
    TrimStartOfNonSpace(t);
  }

  /** Text starting with a minus sign parses as the negation of the digits after it. */
  lemma ParseIntNegative(t: string)
    requires |t| > 0 && t[0] == '-'
    ensures ParseInt(t) == Negate(ParseDigits(t[1..]))
  {
    TrimStartOfNonSpace(t);
  }

  /** Text that starts with a digit and reads as `v` parses as `v`. */
  lemma ParseIntOfUnsigned(d: string, v: int)
    requires |d| > 0 && IsDigit(d[0]) && ParseDigits(d) == Some(v)
    ensures ParseInt(d) == Some(v)
  {
    ParseIntUnsigned(d);
  }

  /** A minus sign followed by text that reads as `v` parses as `-v`. */
  lemma ParseIntOfMinus(d: string, v: int)
    requires ParseDigits(d) == Some(v)
    ensures ParseInt("-" + d) == Some(-v)
  {
    var t := "-" + d;
    assert t[0] == '-' && t[1..] == d;
    ParseIntNegative(t);
  }

  /** Parsing the decimal rendering of a natural number reads that number. */
  lemma ParseIntOfNatToString(n: nat)
    ensures ParseInt(NatToString(n)) == Some(n)
  {
    var d := NatToString(n);
    assert ParseDigits(d) == Some(n) by {
      ParseDigitsOfDigits(d);
      DigitsValueOfNatToString(n);
    }
    ParseIntOfUnsigned(d, n);
  }

  /** Parsing a minus sign and the decimal rendering of a natural number reads its negation. */
  lemma ParseIntOfNegatedNatToString(n: nat)
    ensures ParseInt("-" + NatToString(n)) == Some(-(n as int))
  {
    var d := NatToString(n);
    assert ParseDigits(d) == Some(n) by {
      ParseDigitsOfDigits(d);
      DigitsValueOfNatToString(n);
    }
    ParseIntOfMinus(d, n);
  }

  /** `parseInt(String(i), 10) == i`: rendering an integer and parsing it back is the identity. */
  lemma ParseIntOfIntToString(i: int)
    ensures ParseInt(IntToString(i)) == Some(i)
  {
    if i < 0 {
      ParseIntOfNegatedNatToString(-i);
    } else {
      ParseIntOfNatToString(i);
    }
  }
}
