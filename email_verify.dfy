/**
 * The e-mail confirmation page (frontend/src/pages/EmailVerifyPage/EmailVerifyPage.tsx,
 * and its unrouted twin frontend/src/pages/EmailVerifyPage.tsx, whose
 * handlers are the same): six one-digit boxes edited by typing, pasting and
 * Backspace, the submit that is enabled only with a full code, and the
 * resend button behind a sixty-second cooldown.
 */
module EmailVerify {
  import opened Wrappers
  import opened Text

  const Slots := 6
  const CooldownStart := 60
  const AfterVerify := "/dashboard"

  /** What one box can hold: nothing, or one digit. */
  predicate IsSlot(s: string) {
    s == "" || (|s| == 1 && IsDigit(s[0]))
  }

  predicate AllSlots(slots: seq<string>) {
    forall j :: 0 <= j < |slots| ==> IsSlot(slots[j])
  }

  /** `["", "", "", "", "", ""]`. */
  const EmptyCode: seq<string> := ["", "", "", "", "", ""]

  /**
   * The loop `for (i = 0; i < d.length && idx + i < 6; i++) next[idx + i] = d[i]`:
   * the characters of `d` go one per box from box `idx` on, until the boxes run out.
   */
  function Fill(slots: seq<string>, idx: nat, d: string): (r: seq<string>)
    decreases |d|
  {
    if d == [] || idx >= |slots| then slots
    else Fill(slots[idx := [d[0]]], idx + 1, d[1..])
  }

  /** Box `j` holds the character of `d` written there, if any, and is unchanged otherwise. */
  lemma {:induction false} FillSlots(slots: seq<string>, idx: nat, d: string)
    ensures |Fill(slots, idx, d)| == |slots|
    ensures forall j :: 0 <= j < |slots| ==>
      Fill(slots, idx, d)[j] == if idx <= j < idx + |d| then [d[j - idx]] else slots[j]
    decreases |d|
  {
    if d != [] && idx < |slots| {
      var next := slots[idx := [d[0]]];
      FillSlots(next, idx + 1, d[1..]);
      forall j | 0 <= j < |slots|
        ensures Fill(slots, idx, d)[j] == if idx <= j < idx + |d| then [d[j - idx]] else slots[j]
      {
        if idx + 1 <= j < idx + |d| {
          assert d[1..][j - (idx + 1)] == d[j - idx];
        }
      }
    }
  }

  /** Filling with digits keeps every box a valid box. */
  lemma FillKeepsSlots(slots: seq<string>, idx: nat, d: string)
    requires AllSlots(slots) && AllDigits(d)
    ensures AllSlots(Fill(slots, idx, d))
  {
    FillSlots(slots, idx, d);
  }

  /**
   * `handleChange(idx, v)` on the code: with at most one digit in `v` that
   * digit (or nothing) goes into box `idx`; with more, they fill the boxes
   * from `idx` on.
   */
  function Typed(slots: seq<string>, idx: nat, v: string): seq<string>
    requires idx < |slots|
  {
    var d := DigitsOnly(v);
    if |d| <= 1 then slots[idx := d] else Fill(slots, idx, d)
  }

  /**
   * What typing into box `idx` does: the boxes before `idx` never change; a
   * lone digit or nothing replaces box `idx` alone; more digits fill the
   * boxes from `idx` on, one each, and the boxes past the last digit keep
   * what they had. The boxes stay valid.
   */
  lemma TypedSlots(slots: seq<string>, idx: nat, v: string)
    requires idx < |slots| && AllSlots(slots)
    ensures var d, r := DigitsOnly(v), Typed(slots, idx, v);
      && |r| == |slots| && AllSlots(r)
      && (forall j :: 0 <= j < idx ==> r[j] == slots[j])
      && (|d| <= 1 ==> r[idx] == d && forall j :: idx < j < |slots| ==> r[j] == slots[j])
      && (|d| > 1 ==> forall j :: idx <= j < |slots| ==>
            r[j] == if j < idx + |d| then [d[j - idx]] else slots[j])
  {
    var d := DigitsOnly(v);
    DigitsOnlySpec(v);
    FillSlots(slots, idx, d);
    FillKeepsSlots(slots, idx, d);
    if |d| == 1 {
      assert IsDigit(d[0]);
    }
  }

  /** `handlePaste(idx, text)` on the code: nothing without a digit, otherwise the digits fill the boxes from `idx` on. */
  function Pasted(slots: seq<string>, idx: nat, text: string): seq<string> {
    var d := DigitsOnly(text);
    if d == "" then slots else Fill(slots, idx, d)
  }

  /** Pasting a six-digit code into the first box fills every box with its digits, in order. */
  lemma PasteWholeCode(slots: seq<string>, text: string)
    requires |slots| == Slots && |DigitsOnly(text)| == Slots
    ensures Pasted(slots, 0, text) == seq(Slots, j requires 0 <= j < Slots => [DigitsOnly(text)[j]])
  {
    FillSlots(slots, 0, DigitsOnly(text));
  }

  /** The sum of the lengths of the boxes: the length of `code.join("")`. */
  function Width(slots: seq<string>): nat {
    if slots == [] then 0 else |slots[0]| + Width(slots[1..])
  }

  lemma {:induction false} JoinWidth(slots: seq<string>)
    ensures |Join(slots, "")| == Width(slots)
  {
    if |slots| > 1 {
      JoinWidth(slots[1..]);
      assert Width(slots[1..][1..]) == Width(slots[2..]);
    } else if |slots| == 1 {
      assert slots[1..] == [];
    }
  }

  /** With valid boxes, the joined code is as long as the boxes exactly when none is empty. */
  lemma {:induction false} WidthFull(slots: seq<string>)
    requires AllSlots(slots)
    ensures Width(slots) <= |slots|
    ensures Width(slots) == |slots| <==> forall j :: 0 <= j < |slots| ==> slots[j] != ""
  {
    if slots != [] {
      assert AllSlots(slots[1..]) by {
        forall j | 0 <= j < |slots[1..]| ensures IsSlot(slots[1..][j]) {
          assert slots[1..][j] == slots[j + 1];
        }
      }
      WidthFull(slots[1..]);
      if forall j :: 0 <= j < |slots| ==> slots[j] != "" {
        assert forall j :: 0 <= j < |slots[1..]| ==> slots[1..][j] == slots[j + 1];
      } else {
        var k :| 0 <= k < |slots| && slots[k] == "";
        if k > 0 {
          assert slots[1..][k - 1] == "";
        }
      }
    }
  }

  /** `canSubmit`: an e-mail, six digits joined, and no submit under way. */
  predicate Ready(email: string, slots: seq<string>, submitting: bool) {
    email != "" && |Join(slots, "")| == Slots && !submitting
  }

  /** With six valid boxes, the form can be submitted exactly when every box holds a digit. */
  lemma ReadyIff(email: string, slots: seq<string>, submitting: bool)
    requires |slots| == Slots && AllSlots(slots)
    ensures Ready(email, slots, submitting)
        <==> email != "" && !submitting && forall j :: 0 <= j < Slots ==> slots[j] != ""
  {
    JoinWidth(slots);
    WidthFull(slots);
  }

  /** A cleared code cannot be submitted. */
  lemma ClearedNotReady(email: string, submitting: bool)
    ensures !Ready(email, EmptyCode, submitting)
  {
    ReadyIff(email, EmptyCode, submitting);
    assert EmptyCode[0] == "";
  }

  /** One tick of the one-second timer: `s > 0 ? s - 1 : 0`. */
  function Tick(s: nat): nat {
    if s > 0 then s - 1 else 0
  }

  /** `n` ticks of the timer. */
  function Ticks(s: nat, n: nat): nat {
    if n == 0 then s else Ticks(Tick(s), n - 1)
  }

  /** The cooldown counts down by one a second and stops at zero. */
  lemma {:induction false} TicksFloor(s: nat, n: nat)
    ensures Ticks(s, n) == if n <= s then s - n else 0
  {
    if n > 0 {
      TicksFloor(Tick(s), n - 1);
    }
  }

  /** Resend is offered again exactly sixty ticks after the page opens or a code is re-sent. */
  lemma ResendAfterSixty(n: nat)
    ensures Ticks(CooldownStart, n) == 0 <==> n >= CooldownStart
  {
    TicksFloor(CooldownStart, n);
  }

  /** The tokens that `verifyRegisterCode` answers with. */
  datatype Tokens = Tokens(access: string, refresh: string)

  /** `Math.min(a, b)`. */
  function Min(a: int, b: int): int { if a <= b then a else b }

  /**
   * The page. `code` is the row of six boxes, `focus` the box that has the
   * keyboard, `storage` stands for `localStorage` and `location` for the
   * route `navigate` goes to.
   */
  class EmailVerifyPage {
    const emailParam: string
    var email: string
    const code: array<string>
    var focus: nat
    var submitting: bool
    var error: Option<string>
    var info: Option<string>
    var cooldown: nat
    var storage: map<string, string>
    var location: Option<string>

    /** Six boxes, each empty or one digit, and the focus on one of them. */
    ghost predicate Valid()
      reads this, code
    {
      code.Length == Slots && AllSlots(code[..]) && focus < Slots
    }

    /** The page as mounted: the e-mail from the link, six empty boxes, the first focused, and a full cooldown. */
    constructor (link: string, initialStorage: map<string, string>)
      ensures Valid() && fresh(code)
      ensures emailParam == link && email == link && code[..] == EmptyCode && focus == 0
      ensures !submitting && error == None && cooldown == CooldownStart
      ensures info == (if link != "" then Some("Мы отправили код на " + link) else None)
      ensures storage == initialStorage && location == None
    {
      emailParam := link;
      email := link;
      code := new string[Slots](_ => "");
      focus := 0;
      submitting := false;
      error := None;
      info := if link != "" then Some("Мы отправили код на " + link) else None;
      cooldown := CooldownStart;
      storage := initialStorage;
      location := None;
      new;
      assert code[..] == EmptyCode;
    }

    /** The e-mail field, shown only when the link carried no address. */
    method SetEmail(typed: string)
      requires emailParam == ""
      modifies this`email
      ensures email == typed
    {
      email := typed;
    }

    /** The loop that writes the digits of `d` into the boxes from `idx` on. */
    method Write(idx: nat, d: string)
      requires Valid() && AllDigits(d)
      modifies code
      ensures Valid()
      ensures code[..] == Fill(old(code[..]), idx, d)
    {
      FillKeepsSlots(code[..], idx, d);
      var i := 0;
      while i < |d| && idx + i < Slots
        invariant 0 <= i <= |d|
        invariant Fill(code[..], idx + i, d[i..]) == Fill(old(code[..]), idx, d)
        invariant code.Length == Slots
      {
        assert d[i..][1..] == d[i + 1..];
        code[idx + i] := [d[i]];
        i := i + 1;
      }
      assert Fill(code[..], idx + i, d[i..]) == code[..];
    }

    /**
     * `handleChange(idx, v)`: the error goes; the code becomes
     * `Typed(code, idx, v)`. A lone digit moves the focus on one box (none
     * past the last); several move it past the last one written, at most to
     * the last box; an empty box leaves it where it was.
     */
    method HandleChange(idx: nat, v: string)
      requires Valid() && idx < Slots
      modifies code, this`error, this`focus
      ensures Valid()
      ensures code[..] == Typed(old(code[..]), idx, v)
      ensures error == None
      ensures var d := DigitsOnly(v);
        focus == if |d| <= 1 then (if d != "" && idx < Slots - 1 then idx + 1 else old(focus))
                 else Min(idx + |d|, Slots - 1)
    {
      error := None;
      var d := DigitsOnly(v);
      DigitsOnlySpec(v);
      TypedSlots(code[..], idx, v);
      if |d| <= 1 {
        code[idx] := d;
        if d != "" && idx < Slots - 1 {
          focus := idx + 1;
        }
      } else {
        Write(idx, d);
        focus := Min(idx + |d|, Slots - 1);
      }
    }

    /**
     * `handleKeyDown(idx, key)`: Backspace in an empty box after the first
     * clears the box before it, moves there and is cancelled; the arrow keys
     * move the focus one box, not past either end. The result says whether
     * the key was cancelled.
     */
    method HandleKeyDown(idx: nat, key: string) returns (prevented: bool)
      requires Valid() && idx < Slots
      modifies code, this`focus
      ensures Valid()
      ensures prevented <==> key == "Backspace" && old(code[idx]) == "" && idx > 0
      ensures prevented ==> code[..] == old(code[..])[idx - 1 := ""] && focus == idx - 1
      ensures !prevented ==> code[..] == old(code[..])
      ensures key == "Backspace" && !prevented ==> focus == old(focus)
      ensures key == "ArrowLeft" ==> focus == (if idx > 0 then idx - 1 else old(focus))
      ensures key == "ArrowRight" ==> focus == (if idx < Slots - 1 then idx + 1 else old(focus))
      ensures key != "Backspace" && key != "ArrowLeft" && key != "ArrowRight" ==> focus == old(focus)
    {
      prevented := false;
      if key == "Backspace" && code[idx] == "" && idx > 0 {
        focus := idx - 1;
        code[idx - 1] := "";
        prevented := true;
      }
      if key == "ArrowLeft" && idx > 0 {
        focus := idx - 1;
      }
      if key == "ArrowRight" && idx < Slots - 1 {
        focus := idx + 1;
      }
    }

    /**
     * `handlePaste(idx, text)`: without a digit nothing changes; otherwise
     * the code becomes `Pasted(code, idx, text)` and the focus goes to the
     * box of the last digit written, at most the last box.
     */
    method HandlePaste(idx: nat, text: string)
      requires Valid() && idx < Slots
      modifies code, this`focus
      ensures Valid()
      ensures code[..] == Pasted(old(code[..]), idx, text)
      ensures DigitsOnly(text) == "" ==> focus == old(focus)
      ensures DigitsOnly(text) != "" ==> focus == Min(idx + |DigitsOnly(text)| - 1, Slots - 1)
    {
      var d := DigitsOnly(text);
      DigitsOnlySpec(text);
      if d == "" {
        return;
      }
      Write(idx, d);
      focus := Min(idx + |d| - 1, Slots - 1);
    }

    /** `setCode(["", "", "", "", "", ""])` and the focus back on the first box. */
    method Clear()
      requires Valid()
      modifies code, this`focus
      ensures Valid() && code[..] == EmptyCode && focus == 0
    {
      forall j | 0 <= j < code.Length {
        code[j] := "";
      }
      focus := 0;
      assert code[..] == EmptyCode;
    }

    /**
     * `submit`: nothing unless the form is ready. Otherwise the messages go;
     * `outcome` is the answer of `verifyRegisterCode` or the message of what
     * it threw. The tokens are stored and the page goes to the dashboard, or
     * the error is shown and the code is cleared. Either way the submit is
     * over when the answer has been handled.
     */
    method Submit(outcome: Result<Tokens, string>)
      requires Valid()
      modifies code, this`focus, this`submitting, this`error, this`info, this`storage, this`location
      ensures Valid()
      ensures Ready(old(email), old(code[..]), old(submitting)) ==> !submitting
      ensures !Ready(old(email), old(code[..]), old(submitting)) ==>
        && code[..] == old(code[..]) && focus == old(focus) && submitting == old(submitting)
        && error == old(error) && info == old(info) && storage == old(storage) && location == old(location)
      ensures Ready(old(email), old(code[..]), old(submitting)) && outcome.Ok? ==>
        && storage == old(storage)["access" := outcome.value.access]["refresh" := outcome.value.refresh]
        && location == Some(AfterVerify) && error == None && info == None
        && code[..] == old(code[..]) && focus == old(focus)
      ensures Ready(old(email), old(code[..]), old(submitting)) && outcome.Err? ==>
        && error == Some(outcome.error) && info == None && code[..] == EmptyCode && focus == 0
        && storage == old(storage) && location == old(location)
    {
      if !Ready(email, code[..], submitting) {
        return;
      }
      submitting := true;
      error := None;
      info := None;
      if outcome.Ok? {
        storage := storage["access" := outcome.value.access];
        storage := storage["refresh" := outcome.value.refresh];
        location := Some(AfterVerify);
      } else {
        error := Some(outcome.error);
        Clear();
      }
      submitting := false;
    }

    /** The one-second timer: the cooldown drops by one and stays at zero. */
    method TickCooldown()
      modifies this`cooldown
      ensures cooldown == Tick(old(cooldown))
    {
      cooldown := if cooldown > 0 then cooldown - 1 else 0;
    }

    /**
     * `resend`: refused without an e-mail or while the cooldown runs.
     * Otherwise the error goes; `failure` is the message `resendRegisterCode`
     * threw, if it did. On success the notice names the address, the cooldown
     * starts again and the code is cleared.
     */
    method Resend(failure: Option<string>)
      requires Valid()
      modifies code, this`focus, this`error, this`info, this`cooldown
      ensures Valid()
      ensures email == "" || old(cooldown) > 0 ==>
        code[..] == old(code[..]) && focus == old(focus) && error == old(error) && info == old(info) && cooldown == old(cooldown)
      ensures email != "" && old(cooldown) == 0 && failure.None? ==>
        && error == None && info == Some("Код отправлен повторно на " + email)
        && cooldown == CooldownStart && code[..] == EmptyCode && focus == 0
      ensures email != "" && old(cooldown) == 0 && failure.Some? ==>
        error == failure && info == old(info) && cooldown == 0 && code[..] == old(code[..]) && focus == old(focus)
    {
      if email == "" || cooldown > 0 {
        return;
      }
      error := None;
      if failure.None? {
        info := Some("Код отправлен повторно на " + email);
        cooldown := CooldownStart;
        Clear();
      } else {
        error := failure;
      }
    }
  }
}
