/**
 * JavaScript's `parseInt(string, 10)` (section 19.2.5 of ECMA-262,
 * "parseInt ( string, radix )") with the radix fixed at 10:
 * skip leading white space and line terminators, take an optional sign,
 * take the longest prefix of decimal digits, and return NaN when that
 * prefix is empty.
 *
 * The result is a mathematical integer: negative zero is identified with
 * zero, and the rounding of very long digit strings to the nearest IEEE
 * double is not modelled.
 */
module JsParseInt {

  /** A JavaScript number as `parseInt` can return it. */
  datatype Num = NaN | Int(value: int)

  /**
   * StrWhiteSpaceChar: the WhiteSpace code points (TAB, VT, FF, ZWNBSP and
   * the Unicode space separators, category Zs) and the LineTerminator code
   * points (LF, CR, LS, PS).
   */
  predicate IsStrWhiteSpace(c: char) {
    var n := c as int;
    n == 0x09 || n == 0x0B || n == 0x0C || n == 0xFEFF ||       // TAB, VT, FF, ZWNBSP
    n == 0x20 || n == 0xA0 || n == 0x1680 ||                    // Zs
    (0x2000 <= n <= 0x200A) || n == 0x202F || n == 0x205F || n == 0x3000 ||
    n == 0x0A || n == 0x0D || n == 0x2028 || n == 0x2029        // LF, CR, LS, PS
  }

  predicate IsDigit(c: char) {
    '0' <= c <= '9'
  }

  predicate AllDigits(s: string) {
    forall i :: 0 <= i < |s| ==> IsDigit(s[i])
  }

  function DigitValue(c: char): (d: nat)
    requires IsDigit(c)
    ensures d < 10
  {
    c as int - '0' as int
  }

  function DigitChar(d: nat): (c: char)
    requires d < 10
    ensures IsDigit(c) && DigitValue(c) == d
  {
    ('0' as int + d) as char
  }

  /** The string with its leading white space removed. */
  function TrimStart(s: string): (r: string)
    ensures r != [] ==> !IsStrWhiteSpace(r[0])
  {
    if s != [] && IsStrWhiteSpace(s[0]) then TrimStart(s[1..]) else s
  }

  /** What `TrimStart` removes is a prefix made of white space, and nothing else. */
  lemma {:induction false} TrimStartRemovesWhiteSpace(s: string)
    ensures var r := TrimStart(s);
      |r| <= |s| && r == s[|s| - |r|..] &&
      forall i :: 0 <= i < |s| - |r| ==> IsStrWhiteSpace(s[i])
  {
    if s != [] && IsStrWhiteSpace(s[0]) {
      TrimStartRemovesWhiteSpace(s[1..]);
    }
  }

  /** The length of the longest prefix of `s` made of decimal digits. */
  function DigitPrefixLength(s: string): (n: nat)
    ensures n <= |s| && AllDigits(s[..n])
    ensures n < |s| ==> !IsDigit(s[n])
  {
    if s != [] && IsDigit(s[0]) then
      var k := DigitPrefixLength(s[1..]);
      assert s[..k + 1] == [s[0]] + s[1..][..k];
      k + 1
    else 0
  }

  /** The value of a string of decimal digits, most significant first. */
  function DigitsValue(ds: string): nat
    requires AllDigits(ds)
  {
    if ds == [] then 0
    else DigitsValue(ds[..|ds| - 1]) * 10 + DigitValue(ds[|ds| - 1])
  }

  /** The text after an optional leading `+` or `-`. */
  function StripSign(t: string): string {
    if t != [] && (t[0] == '+' || t[0] == '-') then t[1..] else t
  }

  /** The longest digit prefix of `u` read as a number, or NaN when there is none. */
  function ParseDigits(u: string): (r: Num)
    ensures r.NaN? <==> u == [] || !IsDigit(u[0])
    ensures r.Int? ==> r.value >= 0
  {
    var n := DigitPrefixLength(u);
    if n == 0 then NaN else Int(DigitsValue(u[..n]))
  }

  /** `parseInt` after the white space: an optional sign, then digits. */
  function ParseSigned(t: string): (r: Num)
    ensures r.NaN? <==> ParseDigits(StripSign(t)).NaN?
    ensures r.Int? && (t == [] || t[0] != '-') ==> r.value >= 0
    ensures r.Int? && t != [] && t[0] == '-' ==> r.value <= 0
  {
    match ParseDigits(StripSign(t))
    case NaN => NaN
    case Int(m) => Int(if t != [] && t[0] == '-' then -m else m)
  }

  /** `parseInt(s, 10)`. */
  function ParseInt(s: string): (r: Num)
    ensures r.Int? ==> ParseDigits(StripSign(TrimStart(s))).Int?
    ensures r.Int? && r.value < 0 ==> TrimStart(s) != [] && TrimStart(s)[0] == '-'
  {
    ParseSigned(TrimStart(s))
  }

  /** The decimal numeral of a natural number, without leading zeros. */
  function Decimal(n: nat): (s: string)
    ensures s != [] && AllDigits(s)
    ensures s[0] != '0' || n == 0
  {
    if n < 10 then [DigitChar(n)] else Decimal(n / 10) + [DigitChar(n % 10)]
  }

  /** Reading a numeral back gives the number it was written from. */
  lemma {:induction false} DecimalRoundTrip(n: nat)
    ensures DigitsValue(Decimal(n)) == n
  {
    if n >= 10 {
      var s := Decimal(n);
      assert s[..|s| - 1] == Decimal(n / 10);
      DecimalRoundTrip(n / 10);
    }
  }

  /** The digit prefix of a numeral followed by text that does not start with a digit is the numeral. */
  lemma {:induction false} DigitPrefixOfNumeral(ds: string, rest: string)
    requires AllDigits(ds)
    requires rest == [] || !IsDigit(rest[0])
    ensures DigitPrefixLength(ds + rest) == |ds|
    ensures (ds + rest)[..|ds|] == ds
  {
    if ds != [] {
      assert (ds + rest)[1..] == ds[1..] + rest;
      DigitPrefixOfNumeral(ds[1..], rest);
    }
  }

  /** Removing leading white space stops at the first other character. */
  lemma {:induction false} TrimStartOfPadded(ws: string, t: string)
    requires forall i :: 0 <= i < |ws| ==> IsStrWhiteSpace(ws[i])
    requires t == [] || !IsStrWhiteSpace(t[0])
    ensures TrimStart(ws + t) == t
  {
    if ws != [] {
      assert (ws + t)[1..] == ws[1..] + t;
      TrimStartOfPadded(ws[1..], t);
    }
  }

  /**
   * Parsing white space, an optional sign, a numeral and any text that
   * does not start with a digit gives the numeral's value with that sign:
   * `parseInt("  12abc", 10)` is 12 and `parseInt("-7", 10)` is -7.
   */
  lemma ParseIntOfNumeral(ws: string, sign: string, n: nat, rest: string)
    requires forall i :: 0 <= i < |ws| ==> IsStrWhiteSpace(ws[i])
    requires sign == "" || sign == "+" || sign == "-"
    requires rest == [] || !IsDigit(rest[0])
    ensures ParseInt(ws + sign + Decimal(n) + rest) == Int(if sign == "-" then -(n as int) else n)
  {
    var ds := Decimal(n);
    var body := sign + ds + rest;
    assert ws + sign + ds + rest == ws + body;
    assert IsDigit(ds[0]);
    assert body[0] == if sign == "" then ds[0] else sign[0];
    assert !IsStrWhiteSpace(body[0]);
    ParseIntOfPadded(ws, body);
    ParseSignedDigits(sign, ds, rest);
    DecimalRoundTrip(n);
  }

  /** Leading white space does not change what `parseInt` reads. */
  lemma ParseIntOfPadded(ws: string, t: string)
    requires forall i :: 0 <= i < |ws| ==> IsStrWhiteSpace(ws[i])
    requires t == [] || !IsStrWhiteSpace(t[0])
    ensures ParseInt(ws + t) == ParseSigned(t)
  {
    TrimStartOfPadded(ws, t);
  }

  /** A sign, a run of digits and a non-digit: the digits' value with that sign. */
  lemma ParseSignedDigits(sign: string, ds: string, rest: string)
    requires sign == "" || sign == "+" || sign == "-"
    requires ds != [] && AllDigits(ds)
    requires rest == [] || !IsDigit(rest[0])
    ensures ParseSigned(sign + ds + rest) == Int(if sign == "-" then -(DigitsValue(ds) as int) else DigitsValue(ds))
  {
    var u := ds + rest;
    var body := sign + u;
    assert sign + ds + rest == body;
    assert StripSign(body) == u by {
      if sign != "" { assert body[1..] == u; }
    }
    DigitPrefixOfNumeral(ds, rest);
  }

  /** `parseInt` is NaN exactly when no digit follows the white space and the optional sign. */
  lemma ParseIntNaN(s: string)
    ensures ParseInt(s).NaN? <==>
      var u := StripSign(TrimStart(s));
      u == [] || !IsDigit(u[0])
  {
  }

  /** Without a leading minus sign the result is never negative. */
  lemma ParseIntNonNegative(s: string)
    requires ParseInt(s).Int?
    requires var t := TrimStart(s); t == [] || t[0] != '-'
    ensures ParseInt(s).value >= 0
  {
  }
}
