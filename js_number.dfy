// Decimal text for integers: the template-literal rendering of a number
// (`${n}`, `String(n)`) and `parseInt(s)` (base 10), which read back what the
// rendering wrote.

module JsNumber {
  import opened Js
  import JsText

  function DigitChar(d: nat): (c: char)
    requires d < 10
    ensures '0' <= c <= '9'
  {
    ('0' as int + d) as char
  }

  function DigitValue(c: char): (d: nat)
    requires '0' <= c <= '9'
    ensures d < 10
  {
    c as int - '0' as int
  }

  /** Decimal digits of `n`, most significant first, no leading zero. */
  function NatToText(n: nat): (s: string)
    ensures |s| >= 1 && JsText.AllDigits(s)
    decreases n
  {
    if n < 10 then [DigitChar(n)] else NatToText(n / 10) + [DigitChar(n % 10)]
  }

  /** `String(n)` for an integer. */
  function IntToText(n: int): (s: string)
  {
    if n < 0 then "-" + NatToText(-n) else NatToText(n)
  }

  /** The value of a string of decimal digits. */
  function DigitsValue(s: string): (v: nat)
    requires JsText.AllDigits(s)
    decreases |s|
  {
    if |s| == 0 then 0 else DigitsValue(s[..|s| - 1]) * 10 + DigitValue(s[|s| - 1])
  }

  /** Length of the longest prefix of `s` made of decimal digits. */
  function DigitRun(s: string): (k: nat)
    ensures k <= |s| && JsText.AllDigits(s[..k])
    ensures k < |s| ==> !('0' <= s[k] <= '9')
  {
    if |s| > 0 && '0' <= s[0] <= '9' then
      var k := 1 + DigitRun(s[1..]);
      assert s[..k] == [s[0]] + s[1..][..k - 1];
      k
    else 0
  }

  /** Value of the digits after an optional sign, or `None` (NaN) if there are none. */
  function SignedValue(t: string): (r: Option<int>)
  {
    var negative := |t| > 0 && t[0] == '-';
    var body := if |t| > 0 && (t[0] == '-' || t[0] == '+') then t[1..] else t;
    var k := DigitRun(body);
    if k == 0 then None
    else
      var v: int := DigitsValue(body[..k]);
      Some(if negative then -v else v)
  }

  /** `parseInt(s)`: leading white space, an optional sign, then the longest run of digits. */
  function ParseInt(s: string): (r: Option<int>)
  {
    SignedValue(JsText.TrimStart(s))
  }

  lemma {:induction false} NatToTextValue(n: nat)
    ensures DigitsValue(NatToText(n)) == n
    decreases n
  {
    var s := NatToText(n);
    if n >= 10 {
      NatToTextValue(n / 10);
      assert s[..|s| - 1] == NatToText(n / 10);
    }
  }

  lemma {:induction false} DigitRunAll(s: string)
    requires JsText.AllDigits(s)
    ensures DigitRun(s) == |s|
    decreases |s|
  {
    if |s| > 0 { DigitRunAll(s[1..]); }
  }

  lemma NoLeadingSpace(s: string)
    requires |s| > 0 && (s[0] == '-' || '0' <= s[0] <= '9')
    ensures JsText.TrimStart(s) == s
  {
    assert !JsText.IsSpace(s[0]);
  }

  /** The digits of a natural number read back as that number. */
  lemma SignedValueDigits(m: nat)
    ensures SignedValue(NatToText(m)) == Some(m)
  {
    var digits := NatToText(m);
    NatToTextValue(m);
    DigitRunAll(digits);
    assert digits[..|digits|] == digits;
  }

  /** `parseInt(String(n))` gives `n` back. */
  lemma ParseIntText(n: int)
    ensures ParseInt(IntToText(n)) == Some(n)
  {
    var s := IntToText(n);
    NoLeadingSpace(s);
    if n < 0 {
      var digits := NatToText(-n);
      NatToTextValue(-n);
      DigitRunAll(digits);
      assert digits[..|digits|] == digits;
      assert s[1..] == digits;
    } else {
      SignedValueDigits(n);
    }
  }
}
