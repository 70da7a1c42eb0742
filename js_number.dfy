/**
 * The JavaScript number coercions the todo handlers rely on: the global
 * `parseInt` called without a radix (ECMA-262, section 19.2.5), the
 * truthiness test `!n` on its result (ToBoolean, section 7.2.14 / 7.1.2)
 * and the `n || d` default.
 *
 * A JavaScript Number is modelled as an unbounded integer, and NaN as
 * `None`; -0 and +0 both become 0, which has the same truthiness.
 */
module JsNumber {
  import opened Wrappers

  /** StrWhiteSpaceChar: WhiteSpace (TAB, VT, FF, ZWNBSP and every Zs code point) or LineTerminator. */
  predicate IsStrWhiteSpace(c: char) {
    var k := c as int;
    k == 0x09 || k == 0x0B || k == 0x0C || k == 0x20 || k == 0xA0 || k == 0xFEFF
    || k == 0x1680 || (0x2000 <= k <= 0x200A) || k == 0x202F || k == 0x205F || k == 0x3000
    || k == 0x0A || k == 0x0D || k == 0x2028 || k == 0x2029
  }

  predicate AllWhiteSpace(s: string) {
    forall i :: 0 <= i < |s| ==> IsStrWhiteSpace(s[i])
  }

  /** The value of `c` as a digit of radix 36: 0-9, then a-z (or A-Z) for 10-35. */
  function DigitValue(c: char): Option<nat> {
    if '0' <= c <= '9' then Some(c as int - '0' as int)
    else if 'a' <= c <= 'z' then Some(c as int - 'a' as int + 10)
    else if 'A' <= c <= 'Z' then Some(c as int - 'A' as int + 10)
    else None
  }

  predicate IsDigit(c: char, radix: nat) {
    DigitValue(c).Some? && DigitValue(c).value < radix
  }

  predicate AllDigits(s: string, radix: nat) {
    forall i :: 0 <= i < |s| ==> IsDigit(s[i], radix)
  }

  /** TrimString(s, start): `s` without its leading white space. */
  function TrimStart(s: string): string {
    if s != [] && IsStrWhiteSpace(s[0]) then TrimStart(s[1..]) else s
  }

  /** What TrimStart removes is white space, and what it keeps does not start with white space. */
  lemma {:induction false} TrimStartSpec(s: string)
    ensures var r := TrimStart(s);
      |r| <= |s| && r == s[|s| - |r|..]
      && AllWhiteSpace(s[..|s| - |r|])
      && (r == [] || !IsStrWhiteSpace(r[0]))
  {
    if s != [] && IsStrWhiteSpace(s[0]) {
      TrimStartSpec(s[1..]);
      var r := TrimStart(s);
      assert s[..|s| - |r|] == [s[0]] + s[1..][..|s| - 1 - |r|];
    }
  }

  /** The longest prefix of `s` made of digits of the given radix. */
  function TakeDigits(s: string, radix: nat): (r: string)
    ensures AllDigits(r, radix)
  {
    if s != [] && IsDigit(s[0], radix) then [s[0]] + TakeDigits(s[1..], radix) else []
  }

  /** TakeDigits keeps a prefix, and stops at the end or at a character that is not a digit. */
  lemma {:induction false} TakeDigitsSpec(s: string, radix: nat)
    ensures var r := TakeDigits(s, radix);
      |r| <= |s| && r == s[..|r|]
      && (|r| == |s| || !IsDigit(s[|r|], radix))
  {
    if s != [] && IsDigit(s[0], radix) {
      TakeDigitsSpec(s[1..], radix);
    }
  }

  function Pow(b: nat, e: nat): nat {
    if e == 0 then 1 else Pow(b, e - 1) * b
  }

  lemma InitAllDigits(ds: string, radix: nat)
    requires ds != [] && AllDigits(ds, radix)
    ensures AllDigits(ds[..|ds| - 1], radix)
  {
    var init := ds[..|ds| - 1];
    forall i | 0 <= i < |init| ensures IsDigit(init[i], radix) { assert init[i] == ds[i]; }
  }

  /** The mathematical integer that a run of digits denotes, most significant digit first. */
  function DigitsValue(ds: string, radix: nat): nat
    requires AllDigits(ds, radix)
  {
    if ds == [] then 0
    else
      InitAllDigits(ds, radix);
      DigitsValue(ds[..|ds| - 1], radix) * radix + DigitValue(ds[|ds| - 1]).value
  }

  lemma ShiftDigit(v: nat, p: nat, radix: nat, d: nat)
    requires v < p && d < radix
    ensures v * radix + d < p * radix
  {
    assert (v + 1) * radix <= p * radix;
  }

  /** A run of k digits denotes a number below radix^k. */
  lemma {:induction false} DigitsValueBound(ds: string, radix: nat)
    requires AllDigits(ds, radix)
    ensures DigitsValue(ds, radix) < Pow(radix, |ds|)
  {
    if ds != [] {
      var init := ds[..|ds| - 1];
      InitAllDigits(ds, radix);
      DigitsValueBound(init, radix);
      var v, d := DigitsValue(init, radix), DigitValue(ds[|ds| - 1]).value;
      ShiftDigit(v, Pow(radix, |init|), radix, d);
      assert DigitsValue(ds, radix) == v * radix + d;
      assert Pow(radix, |ds|) == Pow(radix, |init|) * radix;
    }
  }

  /** The optional sign in front of the digits: whether it is `-`, and what follows it. */
  function SplitSign(t: string): (bool, string) {
    if t != [] && t[0] == '-' then (true, t[1..])
    else if t != [] && t[0] == '+' then (false, t[1..])
    else (false, t)
  }

  /** The value of the longest run of digits at the front of `u`; NaN when the run is empty. */
  function ReadDigits(u: string, radix: nat): Option<nat> {
    var z := TakeDigits(u, radix);
    if z == [] then None else Some(DigitsValue(z, radix))
  }

  /** The unsigned part, with no radix given: a `0x`/`0X` prefix selects radix 16, otherwise radix 10. */
  function ReadMagnitude(u: string): Option<nat> {
    if |u| >= 2 && u[0] == '0' && (u[1] == 'x' || u[1] == 'X') then ReadDigits(u[2..], 16)
    else ReadDigits(u, 10)
  }

  /**
   * `parseInt(s)` with the radix left undefined: skip white space, take an
   * optional sign, switch to radix 16 on a `0x`/`0X` prefix, read the
   * longest run of digits; no digits at all gives NaN.
   */
  function ParseInt(s: string): Option<int> {
    var (negative, u) := SplitSign(TrimStart(s));
    Signed(negative, ReadMagnitude(u))
  }

  /** Applies the sign to a magnitude; NaN stays NaN. */
  function Signed(negative: bool, m: Option<nat>): Option<int> {
    match m
    case None => None
    case Some(v) =>
      var n: int := v;
      Some(if negative then -n else n)
  }

  /** ToBoolean on a Number is false exactly for NaN, +0 and -0. */
  predicate Falsy(n: Option<int>) {
    n.None? || n.value == 0
  }

  /** The expression `n || d` on a Number: `n` when it is truthy, otherwise `d`. */
  function OrElse(n: Option<int>, d: int): int
  {
    if Falsy(n) then d else n.value
  }

  /** The number a sign prefix of "", "+" or "-" and a magnitude denote. */
  function ApplySign(sign: string, m: nat): int {
    var v: int := m;
    if sign == "-" then -v else v
  }

  function DecimalDigit(d: nat): (c: char)
    requires d < 10
    ensures IsDigit(c, 10) && DigitValue(c) == Some(d)
  {
    ('0' as int + d) as char
  }

  /** The plain decimal numeral of a non-negative integer, without leading zeros. */
  function NatToDecimal(n: nat): (s: string)
    ensures s != [] && AllDigits(s, 10)
    ensures DigitsValue(s, 10) == n
    ensures n > 0 ==> s[0] != '0'
  {
    if n < 10 then [DecimalDigit(n)]
    else
      var s := NatToDecimal(n / 10) + [DecimalDigit(n % 10)];
      assert s[..|s| - 1] == NatToDecimal(n / 10);
      s
  }

  /**
   * The plain decimal numeral of an integer: a minus sign, then the digits of |n|.
   * This is what Number::toString writes for |n| < 10^21; from there on it writes exponent form.
   */
  function IntToString(n: int): string {
    SignPrefix(n) + NatToDecimal(Magnitude(n))
  }

  function SignPrefix(n: int): string {
    if n < 0 then "-" else ""
  }

  function Magnitude(n: int): nat {
    if n < 0 then -n else n
  }

  lemma {:induction false} TrimStartSkips(ws: string, t: string)
    requires AllWhiteSpace(ws)
    requires t == [] || !IsStrWhiteSpace(t[0])
    ensures TrimStart(ws + t) == t
  {
    if ws != [] {
      assert (ws + t)[1..] == ws[1..] + t;
      TrimStartSkips(ws[1..], t);
    }
  }

  lemma {:induction false} TakeDigitsStops(ds: string, rest: string, radix: nat)
    requires AllDigits(ds, radix)
    requires rest == [] || !IsDigit(rest[0], radix)
    ensures TakeDigits(ds + rest, radix) == ds
  {
    if ds != [] {
      assert (ds + rest)[0] == ds[0];
      assert (ds + rest)[1..] == ds[1..] + rest;
      TakeDigitsStops(ds[1..], rest, radix);
    }
  }

  lemma SplitSignOf(sign: string, u: string)
    requires sign == "" || sign == "+" || sign == "-"
    requires sign == "" && u != [] ==> u[0] != '-' && u[0] != '+'
    ensures SplitSign(sign + u) == (sign == "-", u)
  {
    var t := sign + u;
    if sign == "-" {
      assert t[0] == '-' && t[1..] == u;
    } else if sign == "+" {
      assert t[0] == '+' && t[1..] == u;
    } else {
      assert t == u;
    }
  }

  /** Once the white space and the sign are split off, only the unsigned part is left to read. */
  lemma ParseIntSplit(ws: string, sign: string, u: string)
    requires AllWhiteSpace(ws)
    requires sign == "" || sign == "+" || sign == "-"
    requires sign == "" && u != [] ==> u[0] != '-' && u[0] != '+' && !IsStrWhiteSpace(u[0])
    ensures ParseInt(ws + sign + u) == Signed(sign == "-", ReadMagnitude(u))
  {
    var t := sign + u;
    assert ws + sign + u == ws + t;
    assert t == [] || !IsStrWhiteSpace(t[0]);
    TrimStartSkips(ws, t);
    SplitSignOf(sign, u);
  }

  lemma ReadDecimal(ds: string, rest: string)
    requires ds != [] && AllDigits(ds, 10)
    requires rest == [] || !IsDigit(rest[0], 10)
    requires !(ds == "0" && rest != [] && (rest[0] == 'x' || rest[0] == 'X'))
    ensures ReadMagnitude(ds + rest) == Some(DigitsValue(ds, 10))
  {
    var u := ds + rest;
    assert u[0] == ds[0];
    assert !(|u| >= 2 && u[0] == '0' && (u[1] == 'x' || u[1] == 'X')) by {
      if |u| >= 2 && |ds| >= 2 {
        assert u[1] == ds[1] && IsDigit(ds[1], 10);
      } else if |u| >= 2 {
        assert u[1] == rest[0];
      }
    }
    TakeDigitsStops(ds, rest, 10);
  }

  lemma ReadHex(x: char, hs: string, rest: string)
    requires x == 'x' || x == 'X'
    requires AllDigits(hs, 16)
    requires rest == [] || !IsDigit(rest[0], 16)
    ensures ReadMagnitude("0" + [x] + hs + rest) == if hs == [] then None else Some(DigitsValue(hs, 16))
  {
    var u := "0" + [x] + hs + rest;
    assert u[0] == '0' && u[1] == x;
    assert u[2..] == hs + rest;
    TakeDigitsStops(hs, rest, 16);
  }

  lemma SignedSome(sign: string, m: nat)
    ensures Signed(sign == "-", Some(m)) == Some(ApplySign(sign, m))
  {
  }

  /** A decimal numeral after white space and a sign is read up to its first non-digit. */
  lemma ParseIntDecimal(ws: string, sign: string, ds: string, rest: string)
    requires AllWhiteSpace(ws)
    requires sign == "" || sign == "+" || sign == "-"
    requires ds != [] && AllDigits(ds, 10)
    requires rest == [] || !IsDigit(rest[0], 10)
    requires !(ds == "0" && rest != [] && (rest[0] == 'x' || rest[0] == 'X'))
    ensures ParseInt(ws + sign + ds + rest) == Some(ApplySign(sign, DigitsValue(ds, 10)))
  {
    var u := ds + rest;
    assert u[0] == ds[0] && IsDigit(ds[0], 10);
    assert ws + sign + ds + rest == ws + sign + u;
    ParseIntSplit(ws, sign, u);
    ReadDecimal(ds, rest);
    SignedSome(sign, DigitsValue(ds, 10));
  }

  /** After a `0x` or `0X` prefix the digits are read in radix 16; a bare prefix gives NaN. */
  lemma ParseIntHex(ws: string, sign: string, x: char, hs: string, rest: string)
    requires AllWhiteSpace(ws)
    requires sign == "" || sign == "+" || sign == "-"
    requires x == 'x' || x == 'X'
    requires AllDigits(hs, 16)
    requires rest == [] || !IsDigit(rest[0], 16)
    ensures ParseInt(ws + sign + "0" + [x] + hs + rest)
         == if hs == [] then None else Some(ApplySign(sign, DigitsValue(hs, 16)))
  {
    var u := "0" + [x] + hs + rest;
    assert ws + sign + "0" + [x] + hs + rest == ws + sign + u;
    assert u[0] == '0';
    ParseIntSplit(ws, sign, u);
    ReadHex(x, hs, rest);
    if hs != [] {
      SignedSome(sign, DigitsValue(hs, 16));
    }
  }

  /** Without a digit after the white space and the sign, the result is NaN. */
  lemma ParseIntNoDigits(ws: string, sign: string, rest: string)
    requires AllWhiteSpace(ws)
    requires sign == "" || sign == "+" || sign == "-"
    requires rest == [] || !IsDigit(rest[0], 10)
    requires sign == "" && rest != [] ==> !IsStrWhiteSpace(rest[0]) && rest[0] != '+' && rest[0] != '-'
    ensures ParseInt(ws + sign + rest) == None
  {
    ParseIntSplit(ws, sign, rest);
    assert TakeDigits(rest, 10) == [];
  }

  lemma NumeralRoundTrip(sign: string, m: nat)
    requires sign == "" || sign == "-"
    ensures ParseInt(sign + NatToDecimal(m)) == Some(ApplySign(sign, m))
  {
    var ds := NatToDecimal(m);
    assert sign + ds == [] + sign + ds + [];
    ParseIntDecimal([], sign, ds, []);
  }

  /** parseInt reads back the plain decimal numeral of every integer. */
  lemma IntToStringRoundTrip(n: int)
    ensures ParseInt(IntToString(n)) == Some(n)
  {
    NumeralRoundTrip(SignPrefix(n), Magnitude(n));
    assert ApplySign(SignPrefix(n), Magnitude(n)) == n;
  }

  lemma MulGrows(x: nat, b: nat)
    requires b >= 1
    ensures x * b >= x
  {
  }

  lemma {:induction false} PowMonotone(b: nat, e: nat, f: nat)
    requires b >= 1 && e <= f
    ensures Pow(b, e) <= Pow(b, f)
  {
    if e < f {
      PowMonotone(b, e, f - 1);
      MulGrows(Pow(b, f - 1), b);
    }
  }

  /**
   * A run of at most 15 decimal digits denotes a number below 2^53, so a
   * JavaScript Number holds it exactly and the unbounded-integer model agrees.
   */
  lemma FifteenDigitsExact(ds: string)
    requires AllDigits(ds, 10) && |ds| <= 15
    ensures DigitsValue(ds, 10) < 0x20_0000_0000_0000
  {
    DigitsValueBound(ds, 10);
    PowMonotone(10, |ds|, 15);
    assert Pow(10, 5) == 100000;
    assert Pow(10, 10) == Pow(10, 5) * 100000 by { PowAdd(10, 5, 5); }
    assert Pow(10, 15) == Pow(10, 10) * 100000 by { PowAdd(10, 10, 5); }
  }

  lemma {:induction false} PowAdd(b: nat, e: nat, f: nat)
    ensures Pow(b, e + f) == Pow(b, e) * Pow(b, f)
  {
    if f > 0 {
      PowAdd(b, e, f - 1);
      assert Pow(b, e + f) == Pow(b, e + f - 1) * b;
      assert Pow(b, e) * Pow(b, f) == Pow(b, e) * (Pow(b, f - 1) * b);
    }
  }
}
