// The one-time-code entry of src/components/OTPInput.tsx: `length` one-digit
// slots, a focused slot that typing, backspace and paste move, and the
// `onComplete` callback, fired with the whole code once every slot is filled.
// A handler returns the string it passes to `onComplete`, or None when it
// makes no call.

module OtpEntry {
  import opened Js
  import JsText

  /** A slot holds nothing or exactly one ASCII digit. */
  predicate SlotOk(slot: string)
  {
    slot == "" || (|slot| == 1 && JsText.AllDigits(slot))
  }

  /** `otp.every((digit) => digit !== '')` */
  predicate Filled(slots: seq<string>)
  {
    forall i :: 0 <= i < |slots| ==> slots[i] != ""
  }

  /** What a handler passes to `onComplete` after writing `slots`, if it calls it at all. */
  function Completion(slots: seq<string>, notify: bool): (r: Option<string>)
    ensures r.Some? <==> notify && Filled(slots)
  {
    if notify && Filled(slots) then Some(JsText.Concat(slots)) else None
  }

  /** `value.slice(-1)`: the last character, or "" for an empty value. */
  function LastChar(value: string): (r: string)
    ensures value == "" ==> r == ""
    ensures value != "" ==> r == [value[|value| - 1]]
  {
    if value == "" then "" else value[|value| - 1..]
  }

  /** `text.slice(0, n)` */
  function Prefix(text: string, n: nat): (r: string)
    ensures |r| <= n && |r| <= |text| && r == text[..|r|]
    ensures |text| >= n ==> |r| == n
    ensures |text| < n ==> r == text
  {
    if |text| <= n then text else text[..n]
  }

  /** The slots after a paste whose kept digits are `digits`: slot i takes digit i, the rest are untouched. */
  function PasteInto(slots: seq<string>, digits: string): (r: seq<string>)
    requires |digits| <= |slots|
    ensures |r| == |slots|
    ensures forall i :: 0 <= i < |digits| ==> r[i] == [digits[i]]
    ensures forall i :: |digits| <= i < |slots| ==> r[i] == slots[i]
  {
    seq(|slots|, i requires 0 <= i < |slots| => if i < |digits| then [digits[i]] else slots[i])
  }

  /** A completed code has one digit per slot: exactly `|slots|` ASCII digits. */
  lemma {:induction false} FilledCode(slots: seq<string>)
    requires forall i :: 0 <= i < |slots| ==> SlotOk(slots[i])
    requires Filled(slots)
    ensures |JsText.Concat(slots)| == |slots|
    ensures JsText.AllDigits(JsText.Concat(slots))
  {
    if |slots| > 0 {
      FilledCode(slots[1..]);
      var rest := JsText.Concat(slots[1..]);
      assert JsText.Concat(slots) == slots[0] + rest;
      assert slots[0][0] == JsText.Concat(slots)[0];
    }
  }

  /** Writing the characters of `s` one per slot and concatenating gives `s` back. */
  lemma {:induction false} ConcatChars(s: string)
    ensures JsText.Concat(seq(|s|, i requires 0 <= i < |s| => [s[i]])) == s
  {
    if |s| > 0 {
      ConcatChars(s[1..]);
      var whole := seq(|s|, i requires 0 <= i < |s| => [s[i]]);
      assert whole[1..] == seq(|s[1..]|, i requires 0 <= i < |s[1..]| => [s[1..][i]]);
      assert s == [s[0]] + s[1..];
    }
  }

  /** Pasting at least `length` leading digits fills every slot and completes with exactly those digits. */
  lemma PasteFullCode(slots: seq<string>, text: string)
    requires |text| >= |slots| && JsText.AllDigits(text[..|slots|])
    ensures var code := text[..|slots|];
      Completion(PasteInto(slots, JsText.Digits(Prefix(text, |slots|))), true) == Some(code)
  {
    var code := text[..|slots|];
    assert Prefix(text, |slots|) == code;
    var r := PasteInto(slots, code);
    assert r == seq(|code|, i requires 0 <= i < |code| => [code[i]]);
    ConcatChars(code);
  }

  class OtpInput {
    /** The number of slots (the `length` prop, 6 by default). */
    const length: nat
    /** Whether an `onComplete` callback was given. */
    const notify: bool
    var slots: seq<string>
    /** The slot holding the keyboard focus, None before any handler moves it. */
    var focus: Option<nat>

    predicate Valid()
      reads this
    {
      |slots| == length && (forall i :: 0 <= i < |slots| ==> SlotOk(slots[i]))
      && (focus.Some? ==> focus.value < length)
    }

    /** `useState(Array(length).fill(''))` */
    constructor(length: nat, notify: bool)
      ensures Valid()
      ensures this.length == length && this.notify == notify
      ensures |slots| == length && forall i :: 0 <= i < length ==> slots[i] == ""
      ensures focus == None
    {
      this.length := length;
      this.notify := notify;
      slots := seq(length, _ => "");
      focus := None;
    }

    /** `handleChange(index, value)`: a value with a non-digit is ignored. */
    method HandleChange(index: nat, value: string) returns (completed: Option<string>)
      requires Valid() && index < length
      modifies this
      ensures Valid()
      ensures !JsText.AllDigits(value) ==> slots == old(slots) && focus == old(focus) && completed == None
      ensures JsText.AllDigits(value) ==>
        && slots == old(slots)[index := LastChar(value)]
        && focus == (if value != "" && index < length - 1 then Some(index + 1) else old(focus))
        && completed == Completion(slots, notify)
    {
      if !JsText.AllDigits(value) {
        return None;
      }
      slots := slots[index := LastChar(value)];
      if value != "" && index < length - 1 {
        focus := Some(index + 1);
      }
      completed := Completion(slots, notify);
    }

    /** `handleKeyDown(index, e)`: backspace on an empty slot steps back, and nothing else changes. */
    method HandleKeyDown(index: nat, key: string)
      requires Valid() && index < length
      modifies this
      ensures Valid() && slots == old(slots)
      ensures focus == (if key == "Backspace" && slots[index] == "" && index > 0 then Some(index - 1) else old(focus))
    {
      if key == "Backspace" && slots[index] == "" && index > 0 {
        focus := Some(index - 1);
      }
    }

    /** `handlePaste(e)`: the digits among the first `length` pasted characters fill the leading slots. */
    method HandlePaste(text: string) returns (completed: Option<string>)
      requires Valid()
      modifies this
      ensures Valid()
      ensures var digits := JsText.Digits(Prefix(text, length));
        && slots == PasteInto(old(slots), digits)
        && focus == (if length == 0 then old(focus) else Some(if |digits| < length - 1 then |digits| else length - 1))
        && completed == Completion(slots, notify)
    {
      var digits := JsText.Digits(Prefix(text, length));
      ghost var before := slots;
      var i := 0;
      while i < |digits|
        invariant 0 <= i <= |digits| <= length == |slots|
        invariant slots == PasteInto(before, digits[..i])
        invariant forall k :: 0 <= k < |slots| ==> SlotOk(slots[k])
        invariant focus == old(focus)
      {
        if i < length {
          slots := slots[i := [digits[i]]];
        }
        assert digits[..i + 1] == digits[..i] + [digits[i]];
        i := i + 1;
      }
      assert digits[..i] == digits;
      var nextIndex: int := if |digits| < length - 1 then |digits| else length - 1;
      if nextIndex >= 0 {
        focus := Some(nextIndex);
      }
      completed := Completion(slots, notify);
    }
  }
}
