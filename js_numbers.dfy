/** JavaScript's `parseInt(string)` (no radix argument) and the decimal text
    of an integer as a template literal renders it. A `None` from `ParseInt`
    stands for `NaN`. Numbers are unbounded here: the loss of precision of
    very long digit strings in a double is not modelled. */
module JsNumbers {
  import opened Wrappers
  import opened JsStrings

  /** The value of `c` as a digit in base `radix` (10 or 16). */
  function DigitValue(c: char, radix: nat): (r: Option<nat>)
    ensures r.Some? ==> r.value < radix
  {
    if '0' <= c <= '9' && (c as int - '0' as int) < radix then Some(c as int - '0' as int)
    else if radix == 16 && 'a' <= c <= 'f' then Some(c as int - 'a' as int + 10)
    else if radix == 16 && 'A' <= c <= 'F' then Some(c as int - 'A' as int + 10)
    else None
  }

  predicate AllDigits(s: string, radix: nat) {
    forall i :: 0 <= i < |s| ==> DigitValue(s[i], radix).Some?
  }

  /** The longest prefix of `s` made of digits of base `radix`. */
  function DigitPrefix(s: string, radix: nat): (r: string)
    ensures |r| <= |s| && r == s[..|r|]
    ensures AllDigits(r, radix)
    ensures |r| < |s| ==> DigitValue(s[|r|], radix).None?
  {
    if |s| == 0 || DigitValue(s[0], radix).None? then ""
    else [s[0]] + DigitPrefix(s[1..], radix)
  }

  /** The value of a digit string, most significant digit first. */
  function DigitsValue(ds: string, radix: nat): nat
    requires AllDigits(ds, radix)
  {
    if |ds| == 0 then 0
    else DigitsValue(ds[..|ds| - 1], radix) * radix + DigitValue(ds[|ds| - 1], radix).value
  }

  /** The leading run of base-`radix` digits of `u` as a number; no digit
      at all gives `NaN` (`None`). */
  function ParseDigits(u: string, radix: nat): (r: Option<int>)
    ensures r.None? <==> u == [] || DigitValue(u[0], radix).None?
    ensures r.Some? ==> r.value >= 0
  {
    var ds := DigitPrefix(u, radix);
    if |ds| == 0 then None else Some(DigitsValue(ds, radix))
  }

  /** An unsigned number: a `0x`/`0X` prefix selects base 16, otherwise
      base 10. */
  function ParseMagnitude(u: string): (r: Option<int>)
    ensures u == [] ==> r.None?
    ensures r.Some? ==> r.value >= 0
  {
    if |u| >= 2 && u[0] == '0' && (u[1] == 'x' || u[1] == 'X') then ParseDigits(u[2..], 16)
    else ParseDigits(u, 10)
  }

  /** `parseInt(s)`: skip leading white space, take an optional sign, then
      read the number that follows. */
  function ParseInt(s: string): (r: Option<int>)
    ensures TrimStart(s) == [] ==> r.None?
    ensures r.Some? && r.value < 0 ==> TrimStart(s)[0] == '-'
  {
    var t := TrimStart(s);
    if |t| > 0 && t[0] == '-' then
      (match ParseMagnitude(t[1..])
       case None => None
       case Some(v) => Some(-v))
    else if |t| > 0 && t[0] == '+' then ParseMagnitude(t[1..])
    else ParseMagnitude(t)
  }

  function DecimalDigit(d: nat): (c: char)
    requires d < 10
    ensures DigitValue(c, 10) == Some(d)
  {
    ('0' as int + d) as char
  }

  /** The decimal text of a natural number, without leading zeros. */
  function NatToString(n: nat): (r: string)
    ensures |r| >= 1 && AllDigits(r, 10)
    ensures |r| > 1 ==> r[0] != '0'
  {
    if n < 10 then [DecimalDigit(n)]
    else NatToString(n / 10) + [DecimalDigit(n % 10)]
  }

  /** `${n}` for an integer `n`. */
  function IntToString(n: int): string {
    if n < 0 then "-" + NatToString(-n) else NatToString(n)
  }

  lemma {:induction false} NatToStringValue(n: nat)
    ensures DigitsValue(NatToString(n), 10) == n
  {
    var s := NatToString(n);
    if n >= 10 {
      NatToStringValue(n / 10);
      assert s[..|s| - 1] == NatToString(n / 10);
    }
  }

  lemma {:induction false} DigitPrefixOfDigits(s: string, radix: nat)
    requires AllDigits(s, radix)
    ensures DigitPrefix(s, radix) == s
  {
    if |s| > 0 {
      DigitPrefixOfDigits(s[1..], radix);
    }
  }

  /** No digit is white space. */
  lemma DigitIsNotSpace(c: char, radix: nat)
    requires DigitValue(c, radix).Some?
    ensures !IsJsSpace(c)
  {
  }

  /** A run of digits is read as its value. */
  lemma ParseDigitsOfDigits(d: string, radix: nat)
    requires |d| > 0 && AllDigits(d, radix)
    ensures ParseDigits(d, radix) == Some(DigitsValue(d, radix))
  {
    DigitPrefixOfDigits(d, radix);
  }

  /** Text that starts with a digit other than `0` is read in base 10, from
      its first character on. */
  lemma ParseIntLeadingDigit(s: string)
    requires |s| > 0 && '1' <= s[0] <= '9'
    ensures ParseInt(s) == ParseDigits(s, 10)
  {
    DigitIsNotSpace(s[0], 10);
    TrimStartNoLeadingSpace(s);
  }

  /** The decimal text of a natural number reads back as that number. */
  lemma ParseMagnitudeOfNatToString(m: nat)
    ensures ParseMagnitude(NatToString(m)) == Some(m)
  {
    var d := NatToString(m);
    NatToStringValue(m);
    ParseDigitsOfDigits(d, 10);
    assert |d| < 2 || d[0] != '0';
  }

  /** Reading back the decimal text of an integer with `parseInt` gives the
      integer: `parseInt(`${n}`) == n`. */
  lemma ParseIntOfIntToString(n: int)
    ensures ParseInt(IntToString(n)) == Some(n)
  {
    var m: nat := if n < 0 then -n else n;
    ParseMagnitudeOfNatToString(m);
    var d := NatToString(m);
    DigitIsNotSpace(d[0], 10);
    if n < 0 {
      var s := "-" + d;
      assert s[1..] == d;
      TrimStartNoLeadingSpace(s);
    } else {
      TrimStartNoLeadingSpace(d);
    }
  }
}
