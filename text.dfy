/**
 * String helpers shared by the front end and the back end: the digit filter
 * `s.replace(/\D/g, "")`, JavaScript `trim` and Python `strip`, `Array.join`,
 * decimal rendering of integers and ASCII case folding.
 */
module Text {
  import opened Wrappers

  predicate IsDigit(c: char) { '0' <= c <= '9' }

  predicate AllDigits(s: string) { forall i :: 0 <= i < |s| ==> IsDigit(s[i]) }

  /** `s.replace(/\D/g, "")`: keeps the ASCII digits of `s`, in order. */
  function DigitsOnly(s: string): string {
    if s == [] then []
    else (if IsDigit(s[0]) then [s[0]] else []) + DigitsOnly(s[1..])
  }

  /** Only digits are kept, a string of digits is kept whole, and one without digits leaves nothing. */
  lemma {:induction false} DigitsOnlySpec(s: string)
    ensures AllDigits(DigitsOnly(s)) && |DigitsOnly(s)| <= |s|
    ensures AllDigits(s) ==> DigitsOnly(s) == s
    ensures (forall i :: 0 <= i < |s| ==> !IsDigit(s[i])) ==> DigitsOnly(s) == []
  {
    if s != [] {
      DigitsOnlySpec(s[1..]);
      assert forall i :: 0 < i < |s| ==> s[i] == s[1..][i - 1];
      assert AllDigits(s) ==> s == [s[0]] + s[1..];
    }
  }

  lemma DigitsOnlyCons(c: char, s: string)
    ensures DigitsOnly([c] + s) == (if IsDigit(c) then [c] else []) + DigitsOnly(s)
  {
    assert ([c] + s)[1..] == s;
  }

  lemma {:induction false} DigitsOnlyAppend(a: string, b: string)
    ensures DigitsOnly(a + b) == DigitsOnly(a) + DigitsOnly(b)
  {
    if a == [] {
      assert a + b == b;
    } else {
      var c, t := a[0], a[1..];
      var head := if IsDigit(c) then [c] else [];
      assert a == [c] + t;
      assert a + b == [c] + (t + b);
      DigitsOnlyCons(c, t);
      DigitsOnlyCons(c, t + b);
      DigitsOnlyAppend(t, b);
      assert head + (DigitsOnly(t) + DigitsOnly(b)) == (head + DigitsOnly(t)) + DigitsOnly(b);
    }
  }

  /** A digit occurs in the filtered string exactly when it occurs in the input. */
  lemma {:induction false} DigitsOnlyKeepsDigits(s: string, c: char)
    requires IsDigit(c)
    ensures c in DigitsOnly(s) <==> c in s
  {
    if s != [] {
      DigitsOnlyKeepsDigits(s[1..], c);
      assert s == [s[0]] + s[1..];
    }
  }

  /** White space removed by JavaScript's `String.prototype.trim`. */
  predicate IsJsSpace(c: char) {
    c == ' ' || c == '\t' || c == '\n' || c == '\r' || c == '\U{000B}' || c == '\U{000C}'
    || c == '\U{00A0}' || c == '\U{1680}' || ('\U{2000}' <= c <= '\U{200A}') || c == '\U{2028}'
    || c == '\U{2029}' || c == '\U{202F}' || c == '\U{205F}' || c == '\U{3000}' || c == '\U{FEFF}'
  }

  /** White space removed by Python's `str.strip()` (characters for which `isspace()` holds). */
  predicate IsPySpace(c: char) {
    c == ' ' || ('\t' <= c <= '\r') || ('\U{001C}' <= c <= '\U{001F}') || c == '\U{0085}'
    || c == '\U{00A0}' || c == '\U{1680}' || ('\U{2000}' <= c <= '\U{200A}') || c == '\U{2028}'
    || c == '\U{2029}' || c == '\U{202F}' || c == '\U{205F}' || c == '\U{3000}'
  }

  /** `s` without its leading white space. */
  function DropLeading(s: string, isSpace: char -> bool): string {
    if s != [] && isSpace(s[0]) then DropLeading(s[1..], isSpace) else s
  }

  /** What is dropped is white space, and what is left is a suffix that starts with something else. */
  lemma {:induction false} DropLeadingSpec(s: string, isSpace: char -> bool)
    ensures var r := DropLeading(s, isSpace);
      && |r| <= |s| && r == s[|s| - |r|..]
      && (r != [] ==> !isSpace(r[0]))
      && forall i :: 0 <= i < |s| - |r| ==> isSpace(s[i])
  {
    if s != [] && isSpace(s[0]) {
      var t := s[1..];
      DropLeadingSpec(t, isSpace);
      var r := DropLeading(t, isSpace);
      assert DropLeading(s, isSpace) == r;
      assert t[|t| - |r|..] == s[|s| - |r|..];
      forall i | 0 <= i < |s| - |r| ensures isSpace(s[i]) {
        if i > 0 { assert s[i] == t[i - 1]; }
      }
    }
  }

  /** `s` without its trailing white space. */
  function DropTrailing(s: string, isSpace: char -> bool): string {
    if s != [] && isSpace(s[|s| - 1]) then DropTrailing(s[..|s| - 1], isSpace) else s
  }

  /** What is dropped is white space, and what is left is a prefix that ends with something else. */
  lemma {:induction false} DropTrailingSpec(s: string, isSpace: char -> bool)
    ensures var r := DropTrailing(s, isSpace);
      && |r| <= |s| && r == s[..|r|]
      && (r != [] ==> !isSpace(r[|r| - 1]))
      && forall i :: |r| <= i < |s| ==> isSpace(s[i])
  {
    if s != [] && isSpace(s[|s| - 1]) {
      var t := s[..|s| - 1];
      DropTrailingSpec(t, isSpace);
      var r := DropTrailing(t, isSpace);
      assert DropTrailing(s, isSpace) == r;
      assert t[..|r|] == s[..|r|];
      forall i | |r| <= i < |s| ensures isSpace(s[i]) {
        if i < |s| - 1 { assert s[i] == t[i]; }
      }
    }
  }

  function Strip(s: string, isSpace: char -> bool): string {
    DropTrailing(DropLeading(s, isSpace), isSpace)
  }

  /** `s.trim()` in JavaScript. */
  function Trim(s: string): string { Strip(s, IsJsSpace) }

  /** `s.strip()` in Python. */
  function PyStrip(s: string): string { Strip(s, IsPySpace) }

  predicate IsBlankFor(s: string, isSpace: char -> bool) {
    forall i :: 0 <= i < |s| ==> isSpace(s[i])
  }

  /** Stripping leaves nothing exactly when every character is white space. */
  lemma StripEmptyIff(s: string, isSpace: char -> bool)
    ensures Strip(s, isSpace) == [] <==> IsBlankFor(s, isSpace)
  {
    var lead := DropLeading(s, isSpace);
    DropLeadingSpec(s, isSpace);
    DropTrailingSpec(lead, isSpace);
    if Strip(s, isSpace) != [] {
      var r := Strip(s, isSpace);
      assert r[0] == lead[0];
      assert lead[0] == s[|s| - |lead|];
    }
  }

  /** `parts.join(sep)`. */
  function Join(parts: seq<string>, sep: string): string {
    if |parts| == 0 then ""
    else if |parts| == 1 then parts[0]
    else parts[0] + sep + Join(parts[1..], sep)
  }

  lemma JoinCons(head: string, rest: seq<string>, sep: string)
    requires rest != []
    ensures Join([head] + rest, sep) == head + sep + Join(rest, sep)
  {
    assert ([head] + rest)[1..] == rest;
  }

  function DigitChar(d: nat): (c: char)
    requires d < 10
    ensures IsDigit(c)
  {
    ['0', '1', '2', '3', '4', '5', '6', '7', '8', '9'][d]
  }

  function DigitValue(c: char): nat
    requires IsDigit(c)
  {
    (c as int - '0' as int) as nat
  }

  /** The value of a string of decimal digits. */
  function DecimalValue(s: string): nat
    requires AllDigits(s)
  {
    if s == [] then 0 else DecimalValue(s[..|s| - 1]) * 10 + DigitValue(s[|s| - 1])
  }

  /** `String(n)` for a non-negative integer: its decimal digits, without leading zeros. */
  function NatToString(n: nat): (r: string)
    ensures |r| > 0 && AllDigits(r)
    ensures |r| > 1 ==> r[0] != '0'
  {
    if n < 10 then [DigitChar(n)] else NatToString(n / 10) + [DigitChar(n % 10)]
  }

  lemma {:induction false} NatToStringRoundTrip(n: nat)
    ensures DecimalValue(NatToString(n)) == n
  {
    var r := NatToString(n);
    if n < 10 {
      assert r == [DigitChar(n)];
    } else {
      NatToStringRoundTrip(n / 10);
      assert r[..|r| - 1] == NatToString(n / 10);
    }
  }

  /** `String(i)` for an integer. */
  function IntToString(i: int): string {
    if i < 0 then "-" + NatToString(-i) else NatToString(i)
  }

  function LowerChar(c: char): char {
    if 'A' <= c <= 'Z' then (c as int + 32) as char else c
  }

  function Lower(s: string): (r: string)
    ensures |r| == |s|
  {
    seq(|s|, i requires 0 <= i < |s| => LowerChar(s[i]))
  }

  predicate EqualsIgnoreCase(a: string, b: string) { Lower(a) == Lower(b) }

  predicate MatchesAt(s: string, pattern: string, i: nat) {
    i + |pattern| <= |s| && Lower(s[i..i + |pattern|]) == Lower(pattern)
  }

  /** A case-insensitive search for an ASCII pattern, as `/pattern/i.test(s)`. */
  predicate ContainsIgnoreCase(s: string, pattern: string) {
    exists i: nat :: i <= |s| && MatchesAt(s, pattern, i)
  }

  predicate StartsWith(s: string, prefix: string) {
    |prefix| <= |s| && s[..|prefix|] == prefix
  }

  /** `s || undefined`: a string is kept only when it is non-empty. */
  function NonEmpty(s: string): (r: Option<string>)
    ensures r.Some? <==> s != ""
    ensures r.Some? ==> r.value == s
  {
    if s != "" then Some(s) else None
  }
}
