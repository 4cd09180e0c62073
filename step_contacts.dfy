/**
 * The contacts step of the listing wizard
 * (frontend/src/pages/PropertyCreate/steps/StepContacts.tsx): the Kyrgyz
 * phone field, kept in the draft already formatted as "+996 ddd ddd ddd",
 * with its change, key and paste handlers.
 */
module StepContacts {
  import opened Wrappers
  import opened Text
  import opened Wizard

  const KgPrefix := "+996 "
  const MaxDigits := 9

  /** `s.slice(a, b)` for non-negative bounds: both are clamped at the end of `s`. */
  function Slice(s: string, a: nat, b: nat): string {
    var hi := if b <= |s| then b else |s|;
    var lo := if a <= hi then a else hi;
    s[lo..hi]
  }

  /** `parts.filter(Boolean)` on strings: the empty ones are dropped, the others keep their order. */
  function KeepNonEmpty(parts: seq<string>): (r: seq<string>)
    ensures |r| <= |parts|
    ensures forall i :: 0 <= i < |r| ==> r[i] != ""
    ensures (forall i :: 0 <= i < |parts| ==> parts[i] != "") ==> r == parts
  {
    if parts == [] then []
    else
      var rest := KeepNonEmpty(parts[1..]);
      if parts[0] != "" then [parts[0]] + rest else rest
  }

  /** `onlyDigits(x).slice(0, 9)`: the first nine digits of `x`. */
  function KeptDigits(x: string): (d: string)
    ensures AllDigits(d) && |d| <= MaxDigits
    ensures |DigitsOnly(x)| <= MaxDigits ==> d == DigitsOnly(x)
    ensures |DigitsOnly(x)| > MaxDigits ==> d == DigitsOnly(x)[..MaxDigits]
  {
    DigitsOnlySpec(x);
    Slice(DigitsOnly(x), 0, MaxDigits)
  }

  /** `[p1, p2, p3].filter(Boolean).join(" ")`: the digits in groups of three. */
  function Grouped(d: string): string {
    Join(KeepNonEmpty([Slice(d, 0, 3), Slice(d, 3, 6), Slice(d, 6, 9)]), " ")
  }

  lemma KeepNonEmptyCons(p: string, rest: seq<string>)
    ensures KeepNonEmpty([p] + rest) == (if p != "" then [p] else []) + KeepNonEmpty(rest)
  {
    assert ([p] + rest)[1..] == rest;
  }

  /** `[p1, p2, p3].filter(Boolean)`, unfolded. */
  lemma KeepNonEmptyThree(p1: string, p2: string, p3: string)
    ensures KeepNonEmpty([p1, p2, p3])
         == (if p1 != "" then [p1] else []) + (if p2 != "" then [p2] else []) + (if p3 != "" then [p3] else [])
  {
    KeepNonEmptyCons(p3, []);
    assert [p3] + [] == [p3];
    KeepNonEmptyCons(p2, [p3]);
    assert [p2] + [p3] == [p2, p3];
    KeepNonEmptyCons(p1, [p2, p3]);
    assert [p1] + [p2, p3] == [p1, p2, p3];
  }

  /** At most nine digits are grouped 3/3/3 with single spaces; no digits give nothing. */
  lemma GroupedShape(d: string)
    requires |d| <= MaxDigits
    ensures |d| <= 3 ==> Grouped(d) == d
    ensures 3 < |d| <= 6 ==> Grouped(d) == d[..3] + " " + d[3..]
    ensures 6 < |d| ==> Grouped(d) == d[..3] + " " + d[3..6] + " " + d[6..]
  {
    if |d| <= 3 {
      GroupedOne(d);
    } else if |d| <= 6 {
      GroupedTwo(d);
    } else {
      GroupedThree(d);
    }
  }

  lemma GroupedOne(d: string)
    requires |d| <= 3
    ensures Grouped(d) == d
  {
    var p1, p2, p3 := Slice(d, 0, 3), Slice(d, 3, 6), Slice(d, 6, 9);
    assert p1 == d && p2 == "" && p3 == "";
    KeepNonEmptyThree(p1, p2, p3);
    if d == "" {
      assert KeepNonEmpty([p1, p2, p3]) == [];
    } else {
      assert KeepNonEmpty([p1, p2, p3]) == [d];
    }
  }

  lemma GroupedTwo(d: string)
    requires 3 < |d| <= 6
    ensures Grouped(d) == d[..3] + " " + d[3..]
  {
    var p1, p2, p3 := Slice(d, 0, 3), Slice(d, 3, 6), Slice(d, 6, 9);
    assert p1 == d[..3] && p2 == d[3..] && p3 == "";
    KeepNonEmptyThree(p1, p2, p3);
    assert KeepNonEmpty([p1, p2, p3]) == [p1] + [p2];
    JoinCons(p1, [p2], " ");
  }

  lemma GroupedThree(d: string)
    requires 6 < |d| <= MaxDigits
    ensures Grouped(d) == d[..3] + " " + d[3..6] + " " + d[6..]
  {
    var p1, p2, p3 := Slice(d, 0, 3), Slice(d, 3, 6), Slice(d, 6, 9);
    assert p1 == d[..3] && p2 == d[3..6] && p3 == d[6..];
    KeepNonEmptyThree(p1, p2, p3);
    assert KeepNonEmpty([p1, p2, p3]) == [p1] + ([p2] + [p3]);
    JoinCons(p2, [p3], " ");
    JoinCons(p1, [p2] + [p3], " ");
  }

  /** A space between two strings adds no digit. */
  lemma DigitsAroundSpace(a: string, b: string)
    ensures DigitsOnly(a + " " + b) == DigitsOnly(a) + DigitsOnly(b)
  {
    assert a + " " + b == a + ([' '] + b);
    DigitsOnlyAppend(a, [' '] + b);
    DigitsOnlyCons(' ', b);
  }

  /** The spaces between the groups are not digits: the digits of the grouping are the digits grouped. */
  lemma GroupedDigits(d: string)
    requires AllDigits(d) && |d| <= MaxDigits
    ensures DigitsOnly(Grouped(d)) == d
  {
    GroupedShape(d);
    if |d| <= 3 {
      DigitsOnlySpec(d);
    } else if |d| <= 6 {
      var a, b := d[..3], d[3..];
      assert AllDigits(a) && AllDigits(b);
      DigitsOnlySpec(a);
      DigitsOnlySpec(b);
      DigitsAroundSpace(a, b);
      assert a + b == d;
    } else if 6 < |d| {
      var a, b, c := d[..3], d[3..6], d[6..];
      assert AllDigits(a) && AllDigits(b) && AllDigits(c);
      DigitsOnlySpec(a);
      DigitsOnlySpec(b);
      DigitsOnlySpec(c);
      DigitsAroundSpace(a, b);
      DigitsAroundSpace(a + " " + b, c);
      assert a + b + c == d;
    }
  }

  /**
   * `formatKgPhone(x)`: always the "+996 " prefix, followed by the first
   * nine digits of `x` and nothing else but the spaces between the groups;
   * no digits give exactly the prefix.
   */
  function FormatKgPhone(x: string): string {
    KgPrefix + Grouped(KeptDigits(x))
  }

  lemma FormatKgPhoneSpec(x: string)
    ensures var r := FormatKgPhone(x);
      && StartsWith(r, KgPrefix)
      && DigitsOnly(r[|KgPrefix|..]) == KeptDigits(x)
      && (r == KgPrefix <==> KeptDigits(x) == "")
  {
    var d := KeptDigits(x);
    GroupedDigits(d);
    GroupedShape(d);
    assert FormatKgPhone(x)[|KgPrefix|..] == Grouped(d);
  }

  /** Formatting what follows the prefix of a formatted number changes nothing. */
  lemma FormatIdempotent(x: string)
    ensures FormatKgPhone(FormatKgPhone(x)[|KgPrefix|..]) == FormatKgPhone(x)
  {
    var d := KeptDigits(x);
    assert FormatKgPhone(x)[|KgPrefix|..] == Grouped(d);
    GroupedDigits(d);
  }

  /** The number in the input: the stored phone when it starts with "+996", the bare prefix otherwise. */
  function Displayed(phone: Option<string>): (shown: string)
    ensures StartsWith(shown, "+996")
    ensures phone.Some? && StartsWith(phone.value, "+996") ==> shown == phone.value
    ensures !(phone.Some? && StartsWith(phone.value, "+996")) ==> shown == KgPrefix
  {
    if phone.Some? && phone.value != "" && StartsWith(phone.value, "+996") then phone.value else KgPrefix
  }

  /** `handleChange`: what follows the prefix (or the whole text, without one) is formatted into the draft. */
  function HandleChange(d: Draft, typed: string): (r: Draft)
    ensures r.(phone := d.phone) == d
    ensures StartsWith(typed, KgPrefix) ==> r.phone == Some(FormatKgPhone(typed[|KgPrefix|..]))
    ensures !StartsWith(typed, KgPrefix) ==> r.phone == Some(FormatKgPhone(typed))
  {
    var rawRight := if StartsWith(typed, KgPrefix) then typed[|KgPrefix|..] else typed;
    d.(phone := Some(FormatKgPhone(rawRight)))
  }

  /** An input event that leaves a formatted number as it is stores it unchanged, and it is what is shown. */
  lemma ChangeKeepsFormatted(d: Draft, x: string)
    ensures HandleChange(d, FormatKgPhone(x)).phone == Some(FormatKgPhone(x))
    ensures Displayed(HandleChange(d, FormatKgPhone(x)).phone) == FormatKgPhone(x)
  {
    FormatKgPhoneSpec(x);
    FormatIdempotent(x);
  }

  /** The outcome of a key press: whether it is cancelled, and whether the caret is put back after the prefix. */
  datatype KeyResult = KeyResult(prevented: bool, caretToPrefix: bool)

  const AllowedControl: seq<string> := ["Backspace", "Delete", "ArrowLeft", "ArrowRight", "Tab", "Home", "End"]

  /** `/^\d$/.test(key)`. */
  predicate IsDigitKey(key: string) { |key| == 1 && IsDigit(key[0]) }

  /** `s.slice(n)` for a non-negative `n`. */
  function Drop(s: string, n: nat): string {
    if n <= |s| then s[n..] else []
  }

  /** Deleting into the prefix: Backspace at or before its end, Delete inside it. */
  predicate IntoPrefix(key: string, pos: nat) {
    (key == "Backspace" && pos <= |KgPrefix|) || (key == "Delete" && pos < |KgPrefix|)
  }

  /**
   * `handleKeyDown`: deleting into the prefix is cancelled and the caret
   * goes back after it; any other key that is neither a control key nor a
   * digit is cancelled, except "+" at position 0; a digit is cancelled once
   * nine digits follow the prefix. A missing selection reads as position 0.
   */
  function KeyDown(key: string, selectionStart: Option<nat>, shown: string): (r: KeyResult)
    ensures r.caretToPrefix <==> IntoPrefix(key, selectionStart.GetOr(0))
    ensures r.caretToPrefix ==> r.prevented
    ensures !r.prevented <==>
      && !IntoPrefix(key, selectionStart.GetOr(0))
      && (key in AllowedControl || IsDigitKey(key) || (key == "+" && selectionStart.GetOr(0) == 0))
      && !(IsDigitKey(key) && |DigitsOnly(Drop(shown, |KgPrefix|))| >= MaxDigits)
  {
    var pos := selectionStart.GetOr(0);
    if IntoPrefix(key, pos) then KeyResult(true, true)
    else
      var badKey := key !in AllowedControl && !IsDigitKey(key) && !(key == "+" && pos == 0);
      var full := IsDigitKey(key) && |DigitsOnly(Drop(shown, |KgPrefix|))| >= MaxDigits;
      KeyResult(badKey || full, false)
  }

  /** On a formatted number, a digit typed after the prefix is refused exactly when nine digits are there. */
  lemma DigitKeyLimit(x: string, key: string, pos: nat)
    requires IsDigitKey(key) && pos > |KgPrefix|
    ensures KeyDown(key, Some(pos), FormatKgPhone(x)).prevented <==> |KeptDigits(x)| == MaxDigits
  {
    FormatKgPhoneSpec(x);
    assert Drop(FormatKgPhone(x), |KgPrefix|) == FormatKgPhone(x)[|KgPrefix|..];
  }

  /** `handlePaste` as written: the whole clipboard text is formatted, a country code included. */
  function PasteAsWritten(d: Draft, pasted: string): (r: Draft)
    ensures r.(phone := d.phone) == d && r.phone == Some(FormatKgPhone(pasted))
  {
    d.(phone := Some(FormatKgPhone(pasted)))
  }

  /** Pasting "+996 555 123 456" stores "+996 996 555 123": the country code becomes the first digits. */
  lemma PasteKeepsCountryCode(d: Draft, pasted: string)
    requires pasted == "+996 555 123 456"
    ensures PasteAsWritten(d, pasted).phone == Some("+996 996 555 123")
  {
    FormatKeepsCountryCode(pasted);
  }

  /** The formatting of "+996 555 123 456" reads the country code as the first three digits. */
  lemma FormatKeepsCountryCode(pasted: string)
    requires pasted == "+996 555 123 456"
    ensures FormatKgPhone(pasted) == "+996 996 555 123"
  {
    PastedDigits(pasted);
    var digits := DigitsOnly(pasted);
    assert digits[..MaxDigits] == "996555123";
    var kept := KeptDigits(pasted);
    assert kept == digits[..MaxDigits];
    NineGrouped(kept);
    assert FormatKgPhone(pasted) == KgPrefix + Grouped(kept);
    assert KgPrefix + "996 555 123" == "+996 996 555 123";
  }

  lemma NineGrouped(kept: string)
    requires kept == "996555123"
    ensures Grouped(kept) == "996 555 123"
  {
    GroupedThree(kept);
    assert kept[..3] == "996" && kept[3..6] == "555" && kept[6..] == "123";
  }

  /** The digits of the pasted number, country code included. */
  lemma PastedDigits(pasted: string)
    requires pasted == "+996 555 123 456"
    ensures DigitsOnly(pasted) == "996555123456"
  {
    assert pasted == "+" + "996" + " " + "555" + " " + "123" + " " + "456";
    assert AllDigits("996") && AllDigits("555") && AllDigits("123") && AllDigits("456");
    SpacedGroupsDigits("996", "555", "123", "456");
    assert "996" + "555" + "123" + "456" == "996555123456";
  }

  /** The digits of "+a b c e", for groups of digits `a`, `b`, `c`, `e`. */
  lemma SpacedGroupsDigits(a: string, b: string, c: string, e: string)
    requires AllDigits(a) && AllDigits(b) && AllDigits(c) && AllDigits(e)
    ensures DigitsOnly("+" + a + " " + b + " " + c + " " + e) == a + b + c + e
  {
    DigitsOnlySpec(a);
    DigitsOnlySpec(b);
    DigitsOnlySpec(c);
    DigitsOnlySpec(e);
    var t0 := "+" + a;
    DigitsOnlyCons('+', a);
    assert DigitsOnly(t0) == a;
    var t1 := t0 + " " + b;
    DigitsAroundSpace(t0, b);
    var t2 := t1 + " " + c;
    DigitsAroundSpace(t1, c);
    DigitsAroundSpace(t2, e);
  }

  /** `handlePaste` as evidently intended: a leading "+996" is dropped, as the change handler drops the prefix. */
  function Paste(d: Draft, pasted: string): (r: Draft)
    ensures r.(phone := d.phone) == d
    ensures StartsWith(pasted, "+996") ==> r.phone == Some(FormatKgPhone(pasted[4..]))
    ensures !StartsWith(pasted, "+996") ==> r.phone == Some(FormatKgPhone(pasted))
  {
    var local := if StartsWith(pasted, "+996") then pasted[4..] else pasted;
    d.(phone := Some(FormatKgPhone(local)))
  }

  /** Pasting a formatted number stores that number. */
  lemma PasteFormatted(d: Draft, x: string)
    ensures Paste(d, FormatKgPhone(x)).phone == Some(FormatKgPhone(x))
  {
    FormatKgPhoneSpec(x);
    CountryCodeDropped(x);
  }

  /** Formatting a formatted number without its "+996" gives it back. */
  lemma CountryCodeDropped(x: string)
    ensures FormatKgPhone(FormatKgPhone(x)[4..]) == FormatKgPhone(x)
  {
    var f := FormatKgPhone(x);
    var g := f[|KgPrefix|..];
    assert f == KgPrefix + g;
    assert f[4..] == [' '] + g;
    LeadingSpaceFormats(g);
    FormatIdempotent(x);
  }

  /** A space in front of the number adds no digit, so it formats the same. */
  lemma LeadingSpaceFormats(g: string)
    ensures FormatKgPhone([' '] + g) == FormatKgPhone(g)
  {
    DigitsOnlyCons(' ', g);
    assert KeptDigits([' '] + g) == KeptDigits(g);
  }
}
