// `urlBase64ToUint8Array` of src/utils/pwa.ts: a key in the URL-safe base64
// alphabet (section 5 of RFC 4648) is padded, mapped onto the standard
// alphabet (section 4 of RFC 4648), decoded by `atob` and copied byte by
// byte into a `Uint8Array`. `atob` follows the forgiving-base64 decode of the
// HTML standard: ASCII white space is dropped, one or two trailing `=` are
// dropped from a length that is a multiple of 4, a remaining length of 1
// modulo 4 or a character outside the alphabet fails, and the bits left over
// at the end are discarded.

module Base64 {
  import opened Js

  type Byte = x: int | 0 <= x < 256
  type Sextet = x: int | 0 <= x < 64

  /** Character `v` of the standard alphabet `A-Z a-z 0-9 + /`. */
  function StdChar(v: Sextet): (c: char)
    ensures 'A' <= c <= 'Z' || 'a' <= c <= 'z' || '0' <= c <= '9' || c == '+' || c == '/'
  {
    if v < 26 then ('A' as int + v) as char
    else if v < 52 then ('a' as int + v - 26) as char
    else if v < 62 then ('0' as int + v - 52) as char
    else if v == 62 then '+' else '/'
  }

  /** Character `v` of the URL-safe alphabet, with `-` and `_` for the last two. */
  function UrlChar(v: Sextet): (c: char)
  {
    if v < 62 then StdChar(v) else if v == 62 then '-' else '_'
  }

  /** The value of a character of the standard alphabet, None for any other character. */
  function ValueOf(c: char): (v: Option<Sextet>)
    ensures v.Some? ==> StdChar(v.value) == c
  {
    if 'A' <= c <= 'Z' then Some(c as int - 'A' as int)
    else if 'a' <= c <= 'z' then Some(c as int - 'a' as int + 26)
    else if '0' <= c <= '9' then Some(c as int - '0' as int + 52)
    else if c == '+' then Some(62)
    else if c == '/' then Some(63)
    else None
  }

  lemma ValueOfStdChar(v: Sextet)
    ensures ValueOf(StdChar(v)) == Some(v)
  {
  }

  /** The values of all characters, None if one is outside the alphabet. */
  function Sextets(s: string): (r: Option<seq<Sextet>>)
    ensures r.Some? ==> |r.value| == |s|
    decreases |s|
  {
    if |s| == 0 then Some([])
    else match (ValueOf(s[0]), Sextets(s[1..]))
      case (Some(v), Some(rest)) => Some([v] + rest)
      case _ => None
  }

  /** The byte made of the six bits of `a` and the top two of `b`. */
  function First(a: Sextet, b: Sextet): Byte
  {
    (a as int) * 4 + (b as int) / 16
  }

  /** The byte made of the low four bits of `b` and the top four of `c`. */
  function Second(b: Sextet, c: Sextet): Byte
  {
    ((b as int) % 16) * 16 + (c as int) / 4
  }

  /** The byte made of the low two bits of `c` and the six of `d`. */
  function Third(c: Sextet, d: Sextet): Byte
  {
    ((c as int) % 4) * 64 + d as int
  }

  /** Bytes from a run of sextets: three per four, two from a final three, one from a final two. */
  function DecodeSextets(v: seq<Sextet>): (r: seq<Byte>)
    requires |v| % 4 != 1
    decreases |v|
  {
    if |v| >= 4 then
      [First(v[0], v[1]), Second(v[1], v[2]), Third(v[2], v[3])] + DecodeSextets(v[4..])
    else if |v| == 3 then [First(v[0], v[1]), Second(v[1], v[2])]
    else if |v| == 2 then [First(v[0], v[1])]
    else []
  }

  /** Sextets of bytes, three bytes to four, with no padding: the reference encoder. */
  function EncodeSextets(b: seq<Byte>): (r: seq<Sextet>)
    ensures |r| % 4 != 1
    decreases |b|
  {
    if |b| >= 3 then
      [b[0] / 4, (b[0] % 4) * 16 + b[1] / 16, (b[1] % 16) * 4 + b[2] / 64, b[2] % 64] + EncodeSextets(b[3..])
    else if |b| == 2 then [b[0] / 4, (b[0] % 4) * 16 + b[1] / 16, (b[1] % 16) * 4]
    else if |b| == 1 then [b[0] / 4, (b[0] % 4) * 16]
    else []
  }

  function UrlText(v: seq<Sextet>): (s: string)
    ensures |s| == |v| && forall i :: 0 <= i < |v| ==> s[i] == UrlChar(v[i])
  {
    seq(|v|, i requires 0 <= i < |v| => UrlChar(v[i]))
  }

  /** Bytes written in the URL-safe alphabet without padding, as VAPID keys are published. */
  function UrlEncodeNoPad(b: seq<Byte>): (s: string)
  {
    UrlText(EncodeSextets(b))
  }

  /** `'='.repeat((4 - s.length % 4) % 4)` */
  function Padding(s: string): (p: string)
    ensures |p| == (4 - |s| % 4) % 4 && (|s| + |p|) % 4 == 0
    ensures forall i :: 0 <= i < |p| ==> p[i] == '='
  {
    seq((4 - |s| % 4) % 4, _ => '=')
  }

  /** `.replace(/\-/g, '+').replace(/_/g, '/')` */
  function ToStdAlphabet(s: string): (r: string)
    ensures |r| == |s|
    ensures forall i :: 0 <= i < |s| ==> r[i] == (if s[i] == '-' then '+' else if s[i] == '_' then '/' else s[i])
  {
    seq(|s|, i requires 0 <= i < |s| => if s[i] == '-' then '+' else if s[i] == '_' then '/' else s[i])
  }

  /** The ASCII white space of the forgiving decoder: tab, line feed, form feed, carriage return, space. */
  predicate AsciiSpace(c: char)
  {
    c == '\t' || c == '\n' || c == '\U{000C}' || c == '\r' || c == ' '
  }

  function DropSpace(s: string): (r: string)
    ensures |r| <= |s|
    ensures (forall i :: 0 <= i < |s| ==> !AsciiSpace(s[i])) ==> r == s
    decreases |s|
  {
    if |s| == 0 then ""
    else (if AsciiSpace(s[0]) then "" else [s[0]]) + DropSpace(s[1..])
  }

  /** One or two trailing `=` removed. */
  function DropPad(s: string): (r: string)
  {
    if |s| >= 2 && s[|s| - 2] == '=' && s[|s| - 1] == '=' then s[..|s| - 2]
    else if |s| >= 1 && s[|s| - 1] == '=' then s[..|s| - 1]
    else s
  }

  /** A binary string: one character per byte, its code the byte. */
  function BinaryString(b: seq<Byte>): (t: string)
    ensures |t| == |b| && forall i :: 0 <= i < |b| ==> t[i] as int == b[i]
  {
    seq(|b|, i requires 0 <= i < |b| => b[i] as char)
  }

  /** `atob(data)`: the decoded binary string, or None where it throws. */
  function Atob(data: string): (r: Option<string>)
    ensures r.Some? ==> forall i :: 0 <= i < |r.value| ==> r.value[i] as int < 256
  {
    var d := DropSpace(data);
    var e := if |d| % 4 == 0 then DropPad(d) else d;
    if |e| % 4 == 1 then None
    else match Sextets(e)
      case None => None
      case Some(v) => Some(BinaryString(DecodeSextets(v)))
  }

  /** The `atob` argument `urlBase64ToUint8Array(s)` builds: padded, then mapped to the standard alphabet. */
  function Prepared(s: string): (r: string)
    ensures |r| % 4 == 0
  {
    ToStdAlphabet(s + Padding(s))
  }

  /** What `urlBase64ToUint8Array(s)` returns: the character codes of the decoded string, None where `atob` throws. */
  function UrlBase64ToBytes(s: string): (r: Option<seq<Byte>>)
    ensures r.Some? <==> Atob(Prepared(s)).Some?
    ensures r.Some? ==>
      |r.value| == |Atob(Prepared(s)).value| && forall i :: 0 <= i < |r.value| ==> r.value[i] == Atob(Prepared(s)).value[i] as int
  {
    match Atob(Prepared(s))
    case None => None
    case Some(t) => Some(seq(|t|, i requires 0 <= i < |t| => t[i] as int))
  }

  /** The four sextets of three bytes give those bytes back. */
  lemma DecodeTriple(x: Byte, y: Byte, z: Byte)
    ensures First(x / 4, (x % 4) * 16 + y / 16) == x
    ensures Second((x % 4) * 16 + y / 16, (y % 16) * 4 + z / 64) == y
    ensures Third((y % 16) * 4 + z / 64, z % 64) == z
  {
  }

  lemma {:induction false} DecodeEncode(b: seq<Byte>)
    ensures DecodeSextets(EncodeSextets(b)) == b
    decreases |b|
  {
    if |b| >= 3 {
      DecodeEncode(b[3..]);
      DecodeTriple(b[0], b[1], b[2]);
      var e := EncodeSextets(b);
      assert e[4..] == EncodeSextets(b[3..]);
      assert DecodeSextets(e) == [b[0], b[1], b[2]] + DecodeSextets(e[4..]);
      assert b == [b[0], b[1], b[2]] + b[3..];
    } else if |b| == 2 {
      DecodeTriple(b[0], b[1], 0);
      assert b == [b[0], b[1]];
    } else if |b| == 1 {
      DecodeTriple(b[0], 0, 0);
      assert b == [b[0]];
    }
  }

  function StdText(v: seq<Sextet>): (s: string)
    ensures |s| == |v| && forall i :: 0 <= i < |v| ==> s[i] == StdChar(v[i])
  {
    seq(|v|, i requires 0 <= i < |v| => StdChar(v[i]))
  }

  /** The standard text of any sextets reads back as those sextets. */
  lemma {:induction false} SextetsOfStdText(v: seq<Sextet>)
    ensures Sextets(StdText(v)) == Some(v)
    decreases |v|
  {
    if |v| > 0 {
      var s := StdText(v);
      SextetsOfStdText(v[1..]);
      assert s[1..] == StdText(v[1..]);
      ValueOfStdChar(v[0]);
      assert v == [v[0]] + v[1..];
    }
  }

  /** Mapping URL-safe text and its padding onto the standard alphabet gives the standard text and the same padding. */
  lemma MappedUrlText(v: seq<Sextet>, pad: string)
    requires forall i :: 0 <= i < |pad| ==> pad[i] == '='
    ensures ToStdAlphabet(UrlText(v) + pad) == StdText(v) + pad
  {
    var s := UrlText(v);
    var mapped := ToStdAlphabet(s + pad);
    forall i | 0 <= i < |mapped| ensures mapped[i] == (StdText(v) + pad)[i] {
      if i < |s| {
        assert (s + pad)[i] == UrlChar(v[i]);
      } else {
        assert (s + pad)[i] == pad[i - |s|];
      }
    }
  }

  /** Standard text followed by `=` holds no white space. */
  lemma NoSpaceInStd(v: seq<Sextet>, pad: string)
    requires forall i :: 0 <= i < |pad| ==> pad[i] == '='
    ensures DropSpace(StdText(v) + pad) == StdText(v) + pad
  {
    var t := StdText(v) + pad;
    forall i | 0 <= i < |t| ensures !AsciiSpace(t[i]) {
      if i < |v| {
        var c := StdChar(v[i]);
        assert t[i] == c;
      } else {
        assert t[i] == pad[i - |v|];
      }
    }
    assert DropSpace(t) == t;
  }

  /** Up to two `=` after standard text are exactly what the decoder drops. */
  lemma DropPadStd(v: seq<Sextet>, pad: string)
    requires |pad| <= 2 && forall i :: 0 <= i < |pad| ==> pad[i] == '='
    ensures DropPad(StdText(v) + pad) == StdText(v)
  {
    var std := StdText(v);
    var t := std + pad;
    assert |std| == 0 || std[|std| - 1] != '=';
    if |pad| == 2 {
      assert t[..|t| - 2] == std;
    } else if |pad| == 1 {
      assert t[..|t| - 1] == std;
    } else {
      assert t == std;
    }
  }

  /** `atob` of padded standard text decodes exactly the sextets it was written from. */
  lemma AtobStd(v: seq<Sextet>, pad: string)
    requires |v| % 4 != 1 && (|v| + |pad|) % 4 == 0
    requires |pad| <= 2 && forall i :: 0 <= i < |pad| ==> pad[i] == '='
    ensures Atob(StdText(v) + pad) == Some(BinaryString(DecodeSextets(v)))
  {
    var t := StdText(v) + pad;
    NoSpaceInStd(v, pad);
    assert DropSpace(t) == t;
    DropPadStd(v, pad);
    assert |t| % 4 == 0;
    assert DropPad(t) == StdText(v);
    SextetsOfStdText(v);
  }

  /** The decoder reads back any key the reference encoder writes: bytes to URL-safe text and back is the identity. */
  lemma UrlRoundTrip(b: seq<Byte>)
    ensures UrlBase64ToBytes(UrlEncodeNoPad(b)) == Some(b)
  {
    var v := EncodeSextets(b);
    var s := UrlEncodeNoPad(b);
    var pad := Padding(s);
    MappedUrlText(v, pad);
    AtobStd(v, pad);
    DecodeEncode(b);
    var t := BinaryString(b);
    assert Atob(Prepared(s)) == Some(t);
    assert seq(|t|, i requires 0 <= i < |t| => t[i] as int) == b;
  }

  /** `urlBase64ToUint8Array(s)`: the decoded characters copied into a fresh array, one byte per character. */
  method UrlBase64ToUint8Array(s: string) returns (out: Option<array<Byte>>)
    ensures out.None? <==> UrlBase64ToBytes(s).None?
    ensures out.Some? ==> fresh(out.value) && out.value[..] == UrlBase64ToBytes(s).value
  {
    var raw := Atob(Prepared(s));
    if raw.None? {
      return None;
    }
    var rawData := raw.value;
    var output := new Byte[|rawData|];
    var i := 0;
    while i < |rawData|
      invariant 0 <= i <= |rawData|
      invariant forall k :: 0 <= k < i ==> output[k] == rawData[k] as int
    {
      output[i] := rawData[i] as int;
      i := i + 1;
    }
    assert output[..] == UrlBase64ToBytes(s).value;
    out := Some(output);
  }
}
