/** `decodeURIComponent`: every `%XX` escape is read as a byte, runs of
    bytes are read as UTF-8, and a malformed escape or an invalid UTF-8
    sequence makes the call throw a URIError (`None` here). Characters are
    Unicode scalar values, so the UTF-16 encoding of the result is implicit. */
module UriDecoding {
  import opened Wrappers
  import opened JsNumbers

  /** The byte written as `%XX` at index `k` of `s`. */
  function EscapedByte(s: string, k: nat): (r: Option<nat>)
    ensures r.Some? ==> k + 3 <= |s| && s[k] == '%' && r.value < 256
  {
    if k + 3 <= |s| && s[k] == '%' then
      match (DigitValue(s[k + 1], 16), DigitValue(s[k + 2], 16))
      case (Some(hi), Some(lo)) => Some(hi * 16 + lo)
      case _ => None
    else None
  }

  /** The `n` bytes written as consecutive escapes from index `k`. */
  function EscapedBytes(s: string, k: nat, n: nat): (r: Option<seq<nat>>)
    requires k <= |s|
    ensures r.Some? ==> |r.value| == n && k + 3 * n <= |s|
    ensures r.Some? ==> forall i :: 0 <= i < n ==> r.value[i] < 256
    decreases n
  {
    if n == 0 then Some([])
    else match EscapedByte(s, k)
      case None => None
      case Some(b) =>
        match EscapedBytes(s, k + 3, n - 1)
        case None => None
        case Some(rest) => Some([b] + rest)
  }

  /** The length of the UTF-8 sequence a leading byte announces; 1 and 5
      (a continuation byte, or more than four ones) are invalid leads. */
  function SequenceLength(b: nat): nat {
    if b < 0x80 then 0
    else if b < 0xC0 then 1
    else if b < 0xE0 then 2
    else if b < 0xF0 then 3
    else if b < 0xF8 then 4
    else 5
  }

  predicate IsContinuation(b: nat) {
    0x80 <= b < 0xC0
  }

  predicate IsScalarValue(cp: int) {
    (0 <= cp < 0xD800) || (0xE000 <= cp < 0x11_0000)
  }

  /** The code point of a multi-byte UTF-8 sequence, or `None` when the
      sequence is not a valid (shortest-form, non-surrogate) encoding. */
  function Utf8CodePoint(bytes: seq<nat>): (r: Option<nat>)
    ensures r.Some? ==> IsScalarValue(r.value)
  {
    if !(2 <= |bytes| <= 4) then None
    else if exists i :: 1 <= i < |bytes| && !IsContinuation(bytes[i]) then None
    else
      var cp :=
        if |bytes| == 2 then (bytes[0] % 32) * 64 + bytes[1] % 64
        else if |bytes| == 3 then ((bytes[0] % 16) * 64 + bytes[1] % 64) * 64 + bytes[2] % 64
        else (((bytes[0] % 8) * 64 + bytes[1] % 64) * 64 + bytes[2] % 64) * 64 + bytes[3] % 64;
      var least := if |bytes| == 2 then 0x80 else if |bytes| == 3 then 0x800 else 0x1_0000;
      if cp < least || !IsScalarValue(cp) then None else Some(cp)
  }

  function Prepend(c: char, r: Option<string>): (r': Option<string>)
    ensures r'.Some? <==> r.Some?
    ensures r'.Some? ==> r'.value == [c] + r.value
  {
    match r
    case None => None
    case Some(t) => Some([c] + t)
  }

  /** `decodeURIComponent(s)`: every character of the result comes from at
      least one character of `s`, so decoding never lengthens the text. */
  function DecodeUriComponent(s: string): (r: Option<string>)
    ensures r.Some? ==> |r.value| <= |s|
    decreases |s|
  {
    if |s| == 0 then Some("")
    else if s[0] != '%' then Prepend(s[0], DecodeUriComponent(s[1..]))
    else match EscapedByte(s, 0)
      case None => None
      case Some(b) =>
        var n := SequenceLength(b);
        if n == 0 then Prepend(b as char, DecodeUriComponent(s[3..]))
        else if n == 1 || n == 5 then None
        else match EscapedBytes(s, 0, n)
          case None => None
          case Some(bytes) =>
            match Utf8CodePoint(bytes)
            case None => None
            case Some(cp) => Prepend(cp as char, DecodeUriComponent(s[3 * n..]))
  }

  /** Text without `%` decodes to itself. */
  lemma {:induction false} DecodeWithoutEscapes(s: string)
    requires '%' !in s
    ensures DecodeUriComponent(s) == Some(s)
  {
    if |s| > 0 {
      assert s[0] in s;
      DecodeWithoutEscapes(s[1..]);
      assert [s[0]] + s[1..] == s;
    }
  }

  /** A `%` that is not followed by two hexadecimal digits makes the
      decoder throw, whatever plain text comes before it. */
  lemma {:induction false} DecodeRejectsBadEscape(s: string, k: nat)
    requires k < |s| && s[k] == '%' && forall j :: 0 <= j < k ==> s[j] != '%'
    requires k + 3 > |s| || DigitValue(s[k + 1], 16).None? || DigitValue(s[k + 2], 16).None?
    ensures DecodeUriComponent(s) == None
  {
    if k > 0 {
      DecodeRejectsBadEscape(s[1..], k - 1);
    }
  }

  /** The characters `encodeURIComponent` leaves as they are. */
  predicate Unreserved(c: char) {
    ('A' <= c <= 'Z') || ('a' <= c <= 'z') || ('0' <= c <= '9')
    || c == '-' || c == '_' || c == '.' || c == '!' || c == '~' || c == '*' || c == '\'' || c == '(' || c == ')'
  }

  predicate AllUnreserved(s: string) {
    forall i :: 0 <= i < |s| ==> Unreserved(s[i])
  }

  /** An upper-case hexadecimal digit. */
  function HexDigit(d: nat): (c: char)
    requires d < 16
    ensures DigitValue(c, 16) == Some(d)
  {
    if d < 10 then ('0' as int + d) as char else ('A' as int + d - 10) as char
  }

  /** `%XX` for one byte. */
  function PercentByte(b: nat): (r: string)
    requires b < 256
    ensures |r| == 3 && r[0] == '%'
  {
    ['%', HexDigit(b / 16), HexDigit(b % 16)]
  }

  function PercentBytes(bytes: seq<nat>): (r: string)
    requires forall i :: 0 <= i < |bytes| ==> bytes[i] < 256
    ensures |r| == 3 * |bytes|
  {
    if |bytes| == 0 then "" else PercentByte(bytes[0]) + PercentBytes(bytes[1..])
  }

  /** The UTF-8 encoding of a scalar value: one byte below 0x80, then two,
      three or four bytes. */
  function Utf8Encode(cp: nat): (r: seq<nat>)
    requires IsScalarValue(cp)
    ensures 1 <= |r| <= 4 && forall i :: 0 <= i < |r| ==> r[i] < 256
    ensures |r| == 1 <==> cp < 0x80
  {
    if cp < 0x80 then [cp]
    else if cp < 0x800 then [0xC0 + cp / 64, 0x80 + cp % 64]
    else if cp < 0x1_0000 then [0xE0 + cp / 64 / 64, 0x80 + cp / 64 % 64, 0x80 + cp % 64]
    else [0xF0 + cp / 64 / 64 / 64, 0x80 + cp / 64 / 64 % 64, 0x80 + cp / 64 % 64, 0x80 + cp % 64]
  }

  /** `encodeURIComponent` on one character. */
  function EncodeChar(c: char): (r: string)
    ensures Unreserved(c) ==> r == [c]
    ensures !Unreserved(c) ==> |r| >= 3 && r[0] == '%'
  {
    if Unreserved(c) then [c] else PercentBytes(Utf8Encode(c as int))
  }

  /** `encodeURIComponent(s)`, the encoding a query parameter carries: the
      result is never shorter, and it is `s` itself exactly when every
      character of `s` is unreserved. */
  function EncodeUriComponent(s: string): (r: string)
    ensures |r| >= |s|
    ensures r == s <==> AllUnreserved(s)
  {
    if |s| == 0 then ""
    else
      var rest := EncodeUriComponent(s[1..]);
      assert Unreserved(s[0]) ==> (EncodeChar(s[0]) + rest)[1..] == rest && [s[0]] + s[1..] == s;
      EncodeChar(s[0]) + rest
  }

  lemma EscapedByteAt(s: string, k: nat, b: nat)
    requires b < 256 && k + 3 <= |s| && s[k..k + 3] == PercentByte(b)
    ensures EscapedByte(s, k) == Some(b)
  {
    assert s[k] == '%' && s[k + 1] == HexDigit(b / 16) && s[k + 2] == HexDigit(b % 16) by {
      assert s[k..k + 3][0] == s[k] && s[k..k + 3][1] == s[k + 1] && s[k..k + 3][2] == s[k + 2];
    }
  }

  /** Escapes written by `PercentBytes` read back as the same bytes. */
  lemma {:induction false} EscapedBytesAt(s: string, k: nat, bytes: seq<nat>)
    requires forall i :: 0 <= i < |bytes| ==> bytes[i] < 256
    requires k + 3 * |bytes| <= |s| && s[k..k + 3 * |bytes|] == PercentBytes(bytes)
    ensures EscapedBytes(s, k, |bytes|) == Some(bytes)
    decreases |bytes|
  {
    if |bytes| > 0 {
      var m := k + 3 * |bytes|;
      assert PercentBytes(bytes) == PercentByte(bytes[0]) + PercentBytes(bytes[1..]);
      assert s[k..k + 3] == s[k..m][..3];
      EscapedByteAt(s, k, bytes[0]);
      assert s[k + 3..m] == s[k..m][3..];
      EscapedBytesAt(s, k + 3, bytes[1..]);
      assert [bytes[0]] + bytes[1..] == bytes;
    }
  }

  lemma TwoByteSequence(cp: nat)
    requires 0x80 <= cp < 0x800
    ensures var b := Utf8Encode(cp); |b| == 2 && SequenceLength(b[0]) == 2 && Utf8CodePoint(b) == Some(cp)
  {
    var b := Utf8Encode(cp);
    var x, y := cp / 64, cp % 64;
    assert cp == x * 64 + y && 2 <= x < 32;
    assert b[0] % 32 == x && b[1] % 64 == y;
    assert IsContinuation(b[1]);
  }

  lemma ThreeByteSequence(cp: nat)
    requires 0x800 <= cp < 0x1_0000 && IsScalarValue(cp)
    ensures var b := Utf8Encode(cp); |b| == 3 && SequenceLength(b[0]) == 3 && Utf8CodePoint(b) == Some(cp)
  {
    var b := Utf8Encode(cp);
    var q := cp / 64;
    var x, y, z := q / 64, q % 64, cp % 64;
    assert cp == q * 64 + z && q == x * 64 + y && x < 16;
    assert b[0] % 16 == x && b[1] % 64 == y && b[2] % 64 == z;
    assert IsContinuation(b[1]) && IsContinuation(b[2]);
  }

  /** The base-64 digits of a four-byte code point, as its encoding uses them. */
  lemma FourByteDigits(cp: nat) returns (w: nat, x: nat, y: nat, z: nat)
    requires 0x1_0000 <= cp < 0x11_0000
    ensures Utf8Encode(cp) == [0xF0 + w, 0x80 + x, 0x80 + y, 0x80 + z]
    ensures cp == ((w * 64 + x) * 64 + y) * 64 + z && w < 5 && x < 64 && y < 64 && z < 64
  {
    var q := cp / 64;
    var r := q / 64;
    w, x, y, z := r / 64, r % 64, q % 64, cp % 64;
  }

  lemma FourByteSequence(cp: nat)
    requires 0x1_0000 <= cp < 0x11_0000
    ensures var b := Utf8Encode(cp); |b| == 4 && SequenceLength(b[0]) == 4 && Utf8CodePoint(b) == Some(cp)
  {
    var w, x, y, z := FourByteDigits(cp);
    var b := Utf8Encode(cp);
    assert b[0] % 8 == w && b[1] % 64 == x && b[2] % 64 == y && b[3] % 64 == z;
    assert IsContinuation(b[1]) && IsContinuation(b[2]) && IsContinuation(b[3]);
  }

  /** A character `encodeURIComponent` escapes decodes back to itself. */
  lemma DecodeEscapedChar(c: char, rest: string)
    requires !Unreserved(c)
    ensures DecodeUriComponent(EncodeChar(c) + rest) == Prepend(c, DecodeUriComponent(rest))
  {
    var cp: nat := c as int;
    var bytes := Utf8Encode(cp);
    var e := PercentBytes(bytes);
    var s := e + rest;
    assert s[..3 * |bytes|] == e;
    EscapedBytesAt(s, 0, bytes);
    assert e == PercentByte(bytes[0]) + PercentBytes(bytes[1..]);
    assert s[0..3] == PercentByte(bytes[0]);
    EscapedByteAt(s, 0, bytes[0]);
    assert s[3 * |bytes|..] == rest;
    if cp < 0x80 {
      assert bytes[0] == cp && SequenceLength(cp) == 0;
    } else if cp < 0x800 {
      TwoByteSequence(cp);
    } else if cp < 0x1_0000 {
      ThreeByteSequence(cp);
    } else {
      FourByteSequence(cp);
    }
  }

  /** `decodeURIComponent(encodeURIComponent(s)) == s` for every string. */
  lemma {:induction false} DecodeEncodeRoundTrip(s: string)
    ensures DecodeUriComponent(EncodeUriComponent(s)) == Some(s)
  {
    if |s| > 0 {
      var rest := EncodeUriComponent(s[1..]);
      DecodeEncodeRoundTrip(s[1..]);
      if Unreserved(s[0]) {
        var t := EncodeChar(s[0]) + rest;
        assert t[0] == s[0] && t[1..] == rest;
      } else {
        DecodeEscapedChar(s[0], rest);
      }
      assert [s[0]] + s[1..] == s;
    }
  }
}
