/** Conversions between integral JavaScript numbers and their text, as the
    pages use them: template literals and `textContent` assignments render a
    number with Number::toString, and the like counter reads its text back
    with the global `parseInt` (ECMA-262, section 19.2.5, with no radix). */
module Numerals {
  import opened Wrappers

  predicate IsDecimalDigit(c: char) {
    '0' <= c <= '9'
  }

  /** The value of `c` as a digit in bases up to 36 (letters in either case
      stand for 10 to 35); 36 for every other character. */
  function DigitValue(c: char): (d: nat)
    ensures d <= 36
    ensures IsDecimalDigit(c) <==> d < 10
  {
    if '0' <= c <= '9' then c as nat - '0' as nat
    else if 'a' <= c <= 'z' then c as nat - 'a' as nat + 10
    else if 'A' <= c <= 'Z' then c as nat - 'A' as nat + 10
    else 36
  }

  predicate IsDigitIn(c: char, radix: nat) {
    DigitValue(c) < radix
  }

  function DecimalDigit(d: nat): (c: char)
    requires d < 10
    ensures IsDecimalDigit(c) && DigitValue(c) == d
  {
    ('0' as nat + d) as char
  }

  /** Decimal text of a natural number: no sign, no leading zero. */
  function NatToString(n: nat): (s: string)
    ensures |s| >= 1
    ensures forall k :: 0 <= k < |s| ==> IsDecimalDigit(s[k])
    ensures s[0] == '0' <==> n == 0
    ensures n == 0 ==> s == "0"
    decreases n
  {
    if n < 10 then [DecimalDigit(n)] else NatToString(n / 10) + [DecimalDigit(n % 10)]
  }

  /** Number::toString of an integral number: a minus sign for negatives,
      then the decimal digits of the magnitude. */
  function IntToString(i: int): (s: string)
    ensures |s| >= 1
    ensures s[0] == '-' <==> i < 0
    ensures i >= 0 ==> forall k :: 0 <= k < |s| ==> IsDecimalDigit(s[k])
  {
    if i < 0 then "-" + NatToString(-i) else NatToString(i)
  }

  /** The value of a run of digits in base `radix`, most significant first. */
  function DigitsValue(ds: string, radix: nat): nat
    requires forall k :: 0 <= k < |ds| ==> IsDigitIn(ds[k], radix)
  {
    if ds == [] then 0
    else
      var init := ds[..|ds| - 1];
      assert forall k :: 0 <= k < |init| ==> init[k] == ds[k];
      var high: nat := DigitsValue(init, radix);
      MulNat(high, radix);
      high * radix + DigitValue(ds[|ds| - 1])
  }

  lemma MulNat(a: nat, b: nat)
    ensures a * b >= 0
  {
  }

  /** Length of the longest prefix of `s` made of digits in base `radix`. */
  function DigitRunLength(s: string, radix: nat): (k: nat)
    ensures k <= |s|
    ensures forall j :: 0 <= j < k ==> IsDigitIn(s[j], radix)
    ensures k < |s| ==> !IsDigitIn(s[k], radix)
  {
    if s == [] || !IsDigitIn(s[0], radix) then 0 else 1 + DigitRunLength(s[1..], radix)
  }

  /** StrWhiteSpaceChar of ECMA-262: the white space and line terminator
      code points that `parseInt` skips at the front of its argument. */
  predicate IsStrWhiteSpace(c: char) {
    c == '\t' || c == '\n' || c == '\U{000B}' || c == '\U{000C}' || c == '\r'
    || c == ' ' || c == '\U{00A0}' || c == '\U{1680}' || ('\U{2000}' <= c <= '\U{200A}')
    || c == '\U{2028}' || c == '\U{2029}' || c == '\U{202F}' || c == '\U{205F}'
    || c == '\U{3000}' || c == '\U{FEFF}'
  }

  /** `parseInt`'s first step: drop the leading white space, and nothing
      else. */
  function TrimStart(s: string): (t: string)
    ensures |t| <= |s|
    ensures t == s[|s| - |t|..]
    ensures forall j :: 0 <= j < |s| - |t| ==> IsStrWhiteSpace(s[j])
    ensures t == [] || !IsStrWhiteSpace(t[0])
  {
    if s != [] && IsStrWhiteSpace(s[0]) then TrimStart(s[1..]) else s
  }

  /** The global `parseInt(s)` with no radix, over integral results: leading
      white space is skipped, one sign is taken, a `0x`/`0X` prefix switches
      to base 16, and the longest run of digits that follows is read; `None`
      stands for NaN, returned when that run is empty. The text after the
      digits is ignored. */
  function ParseInt(s: string): (r: Option<int>)
    ensures r.Some? ==> var t := TrimStart(s); t != [] && (IsDecimalDigit(t[0]) || t[0] == '-' || t[0] == '+')
    ensures r.Some? && r.value < 0 ==> TrimStart(s)[0] == '-'
  {
    ParseSigned(TrimStart(s))
  }

  /** `parseInt` after the white space: the sign, then the magnitude. A
      number comes out only when a digit follows the sign, and it is
      negative only after a minus. */
  function ParseSigned(t: string): (r: Option<int>)
    ensures r.Some? ==> t != [] && (IsDecimalDigit(t[0]) || t[0] == '-' || t[0] == '+')
    ensures r.Some? && r.value < 0 ==> t[0] == '-'
    ensures t != [] && '1' <= t[0] <= '9' ==> r.Some? && r.value >= 0
  {
    var sign := if t != [] && t[0] == '-' then -1 else 1;
    var u := if t != [] && (t[0] == '-' || t[0] == '+') then t[1..] else t;
    match ParseMagnitude(u)
    case None => None
    case Some(m) => Some(sign * m)
  }

  /** `parseInt` after the sign: an optional `0x`/`0X` prefix choosing base
      16 (base 10 otherwise), then the longest run of digits. */
  function ParseMagnitude(u: string): (r: Option<nat>)
    ensures r.Some? ==> u != [] && IsDecimalDigit(u[0])
    ensures u != [] && '1' <= u[0] <= '9' ==> r.Some?
  {
    var hex := |u| >= 2 && u[0] == '0' && (u[1] == 'x' || u[1] == 'X');
    var radix := if hex then 16 else 10;
    var v := if hex then u[2..] else u;
    var k := DigitRunLength(v, radix);
    if k == 0 then None else Some(DigitsValue(v[..k], radix))
  }

  /** Reads a non-empty run of decimal digits at the front of `t`; gives
      its value and the text that follows. */
  function ScanNat(t: string): Option<(nat, string)> {
    var k := DigitRunLength(t, 10);
    if k == 0 then None else Some((DigitsValue(t[..k], 10), t[k..]))
  }

  /** Reads an optional minus sign and a non-empty run of decimal digits at
      the front of `s`; gives their value and the text that follows. */
  function ScanInt(s: string): Option<(int, string)> {
    if s != [] && s[0] == '-' then
      match ScanNat(s[1..])
      case None => None
      case Some((v, rest)) => Some((-(v as int), rest))
    else
      match ScanNat(s)
      case None => None
      case Some((v, rest)) => Some((v as int, rest))
  }

  /** `x + 1` on a number that may be NaN: NaN stays NaN. */
  function PlusOne(x: Option<int>): (r: Option<int>)
    ensures r.None? <==> x.None?
    ensures x.Some? ==> r.value - x.value == 1
  {
    match x
    case None => None
    case Some(i) => Some(i + 1)
  }

  /** Number::toString of a number that may be NaN. */
  function NumberText(r: Option<int>): (s: string)
    ensures s == "NaN" <==> r.None?
    ensures ParseInt(s) == r
  {
    match r
    case None => "NaN"
    case Some(i) =>
      ParseIntOfIntToString(i);
      IntToString(i)
  }

  lemma {:induction false} DigitsValueOfNatToString(n: nat)
    ensures DigitsValue(NatToString(n), 10) == n
    decreases n
  {
    var s := NatToString(n);
    if n >= 10 {
      var p := NatToString(n / 10);
      assert s == p + [DecimalDigit(n % 10)];
      assert s[..|s| - 1] == p;
      DigitsValueOfNatToString(n / 10);
    }
  }

  /** The digit run of a digit string followed by a non-digit ends exactly
      where the digit string does. */
  lemma {:induction false} DigitRunOfDigits(ds: string, rest: string, radix: nat)
    requires forall k :: 0 <= k < |ds| ==> IsDigitIn(ds[k], radix)
    requires rest == [] || !IsDigitIn(rest[0], radix)
    ensures DigitRunLength(ds + rest, radix) == |ds|
    decreases |ds|
  {
    if ds != [] {
      assert (ds + rest)[1..] == ds[1..] + rest;
      DigitRunOfDigits(ds[1..], rest, radix);
    } else {
      assert ds + rest == rest;
    }
  }

  /** Reading back the digits of a natural number followed by a non-digit
      yields the number and the text after it. */
  lemma ScanNatOfNatToString(n: nat, rest: string)
    requires rest == [] || !IsDecimalDigit(rest[0])
    ensures ScanNat(NatToString(n) + rest) == Some((n, rest))
  {
    var ds := NatToString(n);
    var t := ds + rest;
    DigitRunOfDigits(ds, rest, 10);
    assert t[..|ds|] == ds && t[|ds|..] == rest;
    DigitsValueOfNatToString(n);
  }

  /** Reading back a rendered integer followed by a non-digit yields the
      integer and the text after it. */
  lemma ScanIntOfIntToString(i: int, rest: string)
    requires rest == [] || !IsDecimalDigit(rest[0])
    ensures ScanInt(IntToString(i) + rest) == Some((i, rest))
  {
    if i < 0 {
      ScanIntOfNegative(-i, rest);
    } else {
      ScanIntOfNatToString(i, rest);
    }
  }

  lemma ScanIntOfNatToString(n: nat, rest: string)
    requires rest == [] || !IsDecimalDigit(rest[0])
    ensures ScanInt(NatToString(n) + rest) == Some((n as int, rest))
  {
    var t := NatToString(n) + rest;
    ScanNatOfNatToString(n, rest);
    assert t[0] != '-';
  }

  lemma ScanIntOfNegative(n: nat, rest: string)
    requires rest == [] || !IsDecimalDigit(rest[0])
    ensures ScanInt(("-" + NatToString(n)) + rest) == Some((-(n as int), rest))
  {
    var t := NatToString(n) + rest;
    ScanNatOfNatToString(n, rest);
    assert ("-" + NatToString(n)) + rest == "-" + t;
    assert ("-" + t)[1..] == t;
  }

  /** `parseInt` reads back every integer that Number::toString renders,
      which is what lets the like counter count. */
  lemma ParseIntOfIntToString(i: int)
    ensures ParseInt(IntToString(i)) == Some(i)
  {
    var s := IntToString(i);
    assert TrimStart(s) == s by {
      assert !IsStrWhiteSpace(s[0]);
    }
    if i < 0 {
      ParseSignedOfNegative(-i);
    } else {
      ParseSignedOfNatToString(i);
    }
  }

  lemma ParseSignedOfNatToString(n: nat)
    ensures ParseSigned(NatToString(n)) == Some(n as int)
  {
    ParseMagnitudeOfNatToString(n);
  }

  lemma ParseSignedOfNegative(n: nat)
    ensures ParseSigned("-" + NatToString(n)) == Some(-(n as int))
  {
    assert ("-" + NatToString(n))[1..] == NatToString(n);
    ParseMagnitudeOfNatToString(n);
  }

  /** The magnitude `parseInt` reads from the digits of `n` is `n`: they
      never start with a `0x` prefix. */
  lemma ParseMagnitudeOfNatToString(n: nat)
    ensures ParseMagnitude(NatToString(n)) == Some(n)
  {
    var ds := NatToString(n);
    assert !(|ds| >= 2 && ds[0] == '0');
    DigitRunOfDigits(ds, [], 10);
    assert ds + [] == ds;
    assert ds[..|ds|] == ds;
    DigitsValueOfNatToString(n);
  }

  /** Leading white space does not change what `parseInt` reads. */
  lemma ParseIntSkipsWhiteSpace(ws: string, s: string)
    requires forall j :: 0 <= j < |ws| ==> IsStrWhiteSpace(ws[j])
    ensures ParseInt(ws + s) == ParseInt(s)
  {
    TrimStartOfWhiteSpace(ws, s);
  }

  lemma {:induction false} TrimStartOfWhiteSpace(ws: string, s: string)
    requires forall j :: 0 <= j < |ws| ==> IsStrWhiteSpace(ws[j])
    ensures TrimStart(ws + s) == TrimStart(s)
    decreases |ws|
  {
    if ws == [] {
      assert ws + s == s;
    } else {
      assert (ws + s)[0] == ws[0];
      assert (ws + s)[1..] == ws[1..] + s;
      TrimStartOfWhiteSpace(ws[1..], s);
    }
  }

  /** Distinct integers render as distinct text. */
  lemma IntToStringInjective(i: int, j: int)
    ensures IntToString(i) == IntToString(j) <==> i == j
  {
    if IntToString(i) == IntToString(j) {
      ParseIntOfIntToString(i);
      ParseIntOfIntToString(j);
    }
  }
}
