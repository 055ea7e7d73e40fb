/** Cells of an already-parsed spreadsheet table and the two coercions the
    tools apply to them: `parseInt(x) || 0` for integer contexts and
    `parseFloat(x)` (with or without `|| 0`) for real contexts. A `None`
    result stands for JavaScript's NaN. */
module Cells {

  datatype Option<T> = None | Some(value: T)

  /** One cell of a row produced by the spreadsheet reader. */
  datatype Cell = Num(x: real) | Text(s: string) | Bool(b: bool)

  // ---------------------------------------------------------------------
  // Lexical helpers
  // ---------------------------------------------------------------------

  /** The white space that `parseInt` and `parseFloat` skip at the front. */
  predicate IsSpace(c: char) {
    c == ' ' || c == '\t' || c == '\n' || c == '\r' ||
    c as int == 0x0B || c as int == 0x0C || c as int == 0xA0 ||
    c as int == 0xFEFF || c as int == 0x2028 || c as int == 0x2029
  }

  /** The string without its leading white space. */
  function SkipSpace(s: string): (r: string)
    ensures |r| <= |s| && r == s[|s| - |r|..]
    ensures forall i :: 0 <= i < |s| - |r| ==> IsSpace(s[i])
    ensures r == [] || !IsSpace(r[0])
  {
    if |s| > 0 && IsSpace(s[0]) then SkipSpace(s[1..]) else s
  }

  /** Is `c` a digit of base `radix` (letters count from 10, either case)? */
  predicate IsDigitIn(c: char, radix: nat) {
    ('0' <= c <= '9' && c as int - '0' as int < radix) ||
    ('a' <= c <= 'z' && c as int - 'a' as int + 10 < radix) ||
    ('A' <= c <= 'Z' && c as int - 'A' as int + 10 < radix)
  }

  function DigitValue(c: char, radix: nat): (d: nat)
    requires IsDigitIn(c, radix)
    ensures d < radix
  {
    if '0' <= c <= '9' then c as int - '0' as int
    else if 'a' <= c <= 'z' then c as int - 'a' as int + 10
    else c as int - 'A' as int + 10
  }

  predicate AllDigits(s: string, radix: nat) {
    forall i :: 0 <= i < |s| ==> IsDigitIn(s[i], radix)
  }

  /** Length of the longest prefix of `s` made of base-`radix` digits. */
  function DigitRun(s: string, radix: nat): (n: nat)
    ensures n <= |s|
    ensures forall i :: 0 <= i < n ==> IsDigitIn(s[i], radix)
    ensures n == |s| || !IsDigitIn(s[n], radix)
  {
    if |s| > 0 && IsDigitIn(s[0], radix) then 1 + DigitRun(s[1..], radix) else 0
  }

  /** The number a string of base-`radix` digits denotes. */
  function DigitsValue(s: string, radix: nat): nat
    requires AllDigits(s, radix)
  {
    if s == [] then 0
    else
      var init := s[..|s| - 1];
      assert AllDigits(init, radix) by {
        assert forall i :: 0 <= i < |init| ==> init[i] == s[i];
      }
      var high := DigitsValue(init, radix);
      NatProduct(high, radix);
      high * radix + DigitValue(s[|s| - 1], radix)
  }

  lemma NatProduct(a: nat, b: nat)
    ensures a * b >= 0
  {
  }

  // ---------------------------------------------------------------------
  // parseInt
  // ---------------------------------------------------------------------

  /** Splits an optional leading sign off `t`: is it a minus, and the rest. */
  function SplitSign(t: string): (r: (bool, string))
    ensures r.1 == (if |t| > 0 && (t[0] == '-' || t[0] == '+') then t[1..] else t)
    ensures r.0 <==> |t| > 0 && t[0] == '-'
  {
    if |t| > 0 && (t[0] == '-' || t[0] == '+') then (t[0] == '-', t[1..]) else (false, t)
  }

  function Signed(negative: bool, m: nat): int {
    if negative then -(m as int) else m
  }

  /** The unsigned part of `parseInt`: an optional `0x`/`0X` prefix selecting
      base 16, then the longest run of digits; no digit gives NaN. */
  function ParseUnsigned(u: string): (r: Option<nat>)
    ensures !HexPrefixed(u) ==> (r.Some? <==> |u| > 0 && '0' <= u[0] <= '9')
    ensures HexPrefixed(u) ==> (r.Some? <==> |u| > 2 && IsDigitIn(u[2], 16))
  {
    var hex := HexPrefixed(u);
    var radix := if hex then 16 else 10;
    var body := if hex then u[2..] else u;
    var n := DigitRun(body, radix);
    if n == 0 then None else Some(DigitsValue(body[..n], radix))
  }

  /** Does `u` start with the `0x`/`0X` prefix that selects base 16? */
  predicate HexPrefixed(u: string) {
    |u| >= 2 && u[0] == '0' && (u[1] == 'x' || u[1] == 'X')
  }

  /** JavaScript `parseInt(s)` without a radix argument: leading white
      space, an optional sign, then the unsigned part. The result is NaN
      exactly when no digit follows (the sign and the `0x` prefix), and its
      sign is the sign written. */
  function ParseInt(s: string): (r: Option<int>)
    ensures var (negative, u) := SplitSign(SkipSpace(s));
      && (!HexPrefixed(u) ==> (r.Some? <==> |u| > 0 && '0' <= u[0] <= '9'))
      && (HexPrefixed(u) ==> (r.Some? <==> |u| > 2 && IsDigitIn(u[2], 16)))
      && (r.Some? && negative ==> r.value <= 0)
      && (r.Some? && !negative ==> r.value >= 0)
  {
    var (negative, u) := SplitSign(SkipSpace(s));
    match ParseUnsigned(u)
    case Some(m) => Some(Signed(negative, m))
    case None => None
  }

  /** `parseInt(s) || 0`: NaN (and -0) become 0, any other number is kept. */
  function ParseIntOrZero(s: string): (n: int)
    ensures ParseInt(s).None? ==> n == 0
    ensures ParseInt(s).Some? ==> n == ParseInt(s).value
  {
    match ParseInt(s)
    case Some(n) => n
    case None => 0
  }

  /** Truncation toward zero, which is what `parseInt` does to the decimal
      text of a finite number. */
  function Trunc(x: real): (r: int)
    ensures 0.0 <= x ==> 0 <= r && r as real <= x < r as real + 1.0
    ensures x < 0.0 ==> r <= 0 && r as real - 1.0 < x <= r as real
  {
    if x >= 0.0 then x.Floor else -((-x).Floor)
  }

  /** `parseInt(cell) || 0` on a spreadsheet cell: a number loses its
      fraction toward zero (a whole number is kept), text is parsed, and a
      boolean is NaN, hence 0. */
  function CellToInt(c: Cell): (n: int)
    ensures c.Num? && c.x == c.x.Floor as real ==> n == c.x.Floor
    ensures c.Num? && 0.0 <= c.x ==> n as real <= c.x < n as real + 1.0
    ensures c.Num? && c.x < 0.0 ==> n as real - 1.0 < c.x <= n as real
    ensures c.Text? ==> n == ParseIntOrZero(c.s)
    ensures c.Bool? ==> n == 0
  {
    match c
    case Num(x) => Trunc(x)
    case Text(s) => ParseIntOrZero(s)
    case Bool(_) => 0
  }

  // ---------------------------------------------------------------------
  // Decimal rendering of integers (template literals such as `Nivel ${i + 1}`)
  // ---------------------------------------------------------------------

  function DigitChar(d: nat): (c: char)
    requires d < 10
    ensures IsDigitIn(c, 10) && DigitValue(c, 10) == d
  {
    ('0' as int + d) as char
  }

  function NatToString(n: nat): (s: string)
    ensures |s| > 0 && AllDigits(s, 10)
  {
    if n < 10 then [DigitChar(n)] else NatToString(n / 10) + [DigitChar(n % 10)]
  }

  function IntToString(n: int): (s: string)
    ensures |s| > 0 && (s[0] == '-' || IsDigitIn(s[0], 10))
  {
    if n < 0 then "-" + NatToString(-n) else NatToString(n)
  }

  lemma {:induction false} NatToStringValue(n: nat)
    ensures DigitsValue(NatToString(n), 10) == n
  {
    if n >= 10 {
      var p := NatToString(n / 10);
      var s := NatToString(n);
      assert s[..|s| - 1] == p;
      NatToStringValue(n / 10);
    }
  }

  /** A string made only of digits is read whole. */
  lemma DigitRunAll(s: string, radix: nat)
    requires AllDigits(s, radix)
    ensures DigitRun(s, radix) == |s|
  {
  }

  /** A decimal numeral with no sign is read back as the number it renders. */
  lemma UnsignedRoundTrip(n: nat)
    ensures ParseUnsigned(NatToString(n)) == Some(n)
  {
    var digits := NatToString(n);
    DigitRunAll(digits, 10);
    assert digits[..|digits|] == digits;
    NatToStringValue(n);
  }

  lemma SignedNumeral(n: int)
    ensures SplitSign(SkipSpace(IntToString(n))) == (n < 0, NatToString(if n < 0 then -n else n))
  {
    var s := IntToString(n);
    assert !IsSpace(s[0]) by {
      assert s[0] == '-' || '0' <= s[0] <= '9';
    }
    assert SkipSpace(s) == s;
    if n < 0 {
      assert s[1..] == NatToString(-n);
    }
  }

  /** `parseInt(String(n)) == n` for every integer `n`. */
  lemma ParseIntRoundTrip(n: int)
    ensures ParseInt(IntToString(n)) == Some(n)
  {
    SignedNumeral(n);
    UnsignedRoundTrip(if n < 0 then -n else n);
  }

  /** A run of digits followed by something that cannot continue it is
      read up to its end and no further. */
  lemma {:induction false} DigitRunStops(a: string, t: string, radix: nat)
    requires AllDigits(a, radix)
    requires t == [] || !IsDigitIn(t[0], radix)
    ensures DigitRun(a + t, radix) == |a|
  {
    if a == [] {
      assert a + t == t;
    } else {
      assert (a + t)[0] == a[0];
      assert (a + t)[1..] == a[1..] + t;
      DigitRunStops(a[1..], t, radix);
    }
  }

  /** A decimal numeral is not mistaken for a `0x` prefix unless it is a
      lone `0` followed by `x` or `X`. */
  lemma NotHexPrefixed(m: nat, t: string)
    requires m != 0 || t == [] || (t[0] != 'x' && t[0] != 'X')
    ensures !HexPrefixed(NatToString(m) + t)
  {
    var a := NatToString(m);
    var u := a + t;
    if |u| >= 2 {
      if m < 10 {
        assert u[1] == t[0];
        assert m != 0 ==> u[0] == DigitChar(m) && u[0] != '0';
      } else {
        assert |a| >= 2 && u[1] == a[1];
        assert IsDigitIn(a[1], 10);
      }
    }
  }

  /** The unsigned part of `parseInt` stops at the first character that is
      not a decimal digit. */
  lemma UnsignedStops(m: nat, t: string)
    requires t == [] || !('0' <= t[0] <= '9')
    requires m != 0 || t == [] || (t[0] != 'x' && t[0] != 'X')
    ensures ParseUnsigned(NatToString(m) + t) == Some(m)
  {
    var a := NatToString(m);
    NotHexPrefixed(m, t);
    DigitRunStops(a, t, 10);
    assert (a + t)[..|a|] == a;
    NatToStringValue(m);
  }

  /** The text of an integer followed by a sign, leading white space skipped. */
  lemma SignedPrefix(n: int, t: string)
    ensures SplitSign(SkipSpace(IntToString(n) + t)) == (n < 0, NatToString(if n < 0 then -n else n) + t)
  {
    var i := IntToString(n);
    var s := i + t;
    assert s[0] == i[0];
    assert !IsSpace(s[0]) by {
      assert i[0] == '-' || '0' <= i[0] <= '9';
    }
    assert SkipSpace(s) == s;
    if n < 0 {
      assert s[1..] == NatToString(-n) + t;
    }
  }

  /** `parseInt` reads the integer at the front of its text and ignores what
      follows from the first character that is not a digit on: "2.5" gives
      2, "1e3" gives 1, "12abc" gives 12. A lone `0` followed by `x` is the
      hexadecimal prefix instead. */
  lemma {:induction false} ParseIntStopsAtNonDigit(n: int, t: string)
    requires t == [] || !('0' <= t[0] <= '9')
    requires n != 0 || t == [] || (t[0] != 'x' && t[0] != 'X')
    ensures ParseInt(IntToString(n) + t) == Some(n)
  {
    SignedPrefix(n, t);
    UnsignedStops(if n < 0 then -n else n, t);
  }

  predicate NoDecimalDigit(s: string) {
    forall i :: 0 <= i < |s| ==> !('0' <= s[i] <= '9')
  }

  lemma NoDigitInSuffix(s: string, t: string)
    requires NoDecimalDigit(s) && |t| <= |s| && t == s[|s| - |t|..]
    ensures NoDecimalDigit(t)
  {
    forall i | 0 <= i < |t|
      ensures !('0' <= t[i] <= '9')
    {
      assert t[i] == s[|s| - |t| + i];
    }
  }

  /** What follows the white space and the sign still holds no digit. */
  lemma NoDigitAfterSign(s: string)
    requires NoDecimalDigit(s)
    ensures NoDecimalDigit(SplitSign(SkipSpace(s)).1)
  {
    var t := SkipSpace(s);
    NoDigitInSuffix(s, t);
    if |t| > 0 && (t[0] == '-' || t[0] == '+') {
      NoDigitInSuffix(t, t[1..]);
    }
  }

  /** Text holding no decimal digit coerces to 0 in an integer context. */
  lemma NoDigitParsesToZero(s: string)
    requires NoDecimalDigit(s)
    ensures ParseInt(s) == None && ParseIntOrZero(s) == 0
  {
    var u := SplitSign(SkipSpace(s)).1;
    NoDigitAfterSign(s);
    if |u| > 0 {
      assert !('0' <= u[0] <= '9');
    }
    assert !HexPrefixed(u);
  }

  // ---------------------------------------------------------------------
  // parseFloat
  // ---------------------------------------------------------------------

  function Pow10(k: nat): (r: real)
    ensures r >= 1.0
  {
    if k == 0 then 1.0 else 10.0 * Pow10(k - 1)
  }

  /** `m` with its decimal point moved `e` places (to the right when `e` is
      positive), one place at a time. */
  function Shift(m: real, e: int): (v: real)
    ensures m >= 0.0 ==> v >= 0.0
    decreases if e < 0 then -e else e
  {
    if e == 0 then m
    else if e > 0 then 10.0 * Shift(m, e - 1)
    else Shift(m, e + 1) / 10.0
  }

  /** The value of an exponent part `e±digits` at the front of `s`; 0 when
      there is none (an `e` not followed by digits is not part of the
      number). */
  function ExponentOf(s: string): int {
    if |s| >= 1 && (s[0] == 'e' || s[0] == 'E') then
      var (negative, u) := SplitSign(s[1..]);
      var n := DigitRun(u, 10);
      if n == 0 then 0 else Signed(negative, DigitsValue(u[..n], 10))
    else 0
  }

  /** Does `u` start with a decimal digit, or with a point followed by one? */
  predicate DecimalLead(u: string) {
    (|u| > 0 && '0' <= u[0] <= '9') || (|u| > 1 && u[0] == '.' && '0' <= u[1] <= '9')
  }

  /** The unsigned part of `parseFloat`: digits with an optional fraction
      and an optional exponent, the longest such prefix; no digit before the
      exponent gives NaN. */
  function ParseUnsignedDecimal(u: string): (r: Option<real>)
    ensures r.Some? <==> DecimalLead(u)
    ensures r.Some? ==> r.value >= 0.0
  {
    var ip := DigitRun(u, 10);
    var dot := ip < |u| && u[ip] == '.';
    var frac := if dot then u[ip + 1..] else [];
    var fp := DigitRun(frac, 10);
    assert ip == 0 && dot ==> |u| > 1 ==> frac[0] == u[1];
    if ip == 0 && fp == 0 then None
    else Some(DecimalValue(u[..ip], frac[..fp], if dot then frac[fp..] else u[ip..]))
  }

  /** The number written as the digits `i`, a point, the digits `f` and an
      exponent part at the front of `rest`. */
  function DecimalValue(i: string, f: string, rest: string): (v: real)
    requires AllDigits(i, 10) && AllDigits(f, 10)
    ensures v >= 0.0
  {
    Shift(Mantissa(i, f), ExponentOf(rest))
  }

  /** The digits `i`, a point and the digits `f`. */
  function Mantissa(i: string, f: string): (m: real)
    requires AllDigits(i, 10) && AllDigits(f, 10)
    ensures m >= 0.0
  {
    DigitsValue(i, 10) as real + Shift(DigitsValue(f, 10) as real, -(|f| as int))
  }

  /** JavaScript `parseFloat(s)`: leading white space, an optional sign,
      then the unsigned decimal part. The result is NaN exactly when neither
      a digit nor a point followed by a digit comes next, and its sign is the
      sign written. */
  function ParseFloat(s: string): (r: Option<real>)
    ensures var (negative, u) := SplitSign(SkipSpace(s));
      && (r.Some? <==> DecimalLead(u))
      && (r.Some? && negative ==> r.value <= 0.0)
      && (r.Some? && !negative ==> r.value >= 0.0)
  {
    var (negative, u) := SplitSign(SkipSpace(s));
    match ParseUnsignedDecimal(u)
    case Some(m) => Some(if negative then -m else m)
    case None => None
  }

  /** Moving the point right `k` places multiplies by ten to the `k`. */
  lemma {:induction false} ShiftRight(x: real, k: nat)
    ensures Shift(x, k) == x * Pow10(k)
  {
    if k > 0 {
      ShiftRight(x, k - 1);
      assert x * (10.0 * Pow10(k - 1)) == 10.0 * (x * Pow10(k - 1));
    }
  }

  /** Moving the point left `k` places divides by ten to the `k`. */
  lemma {:induction false} ShiftLeft(x: real, k: nat)
    ensures Shift(x, -(k as int)) == x / Pow10(k)
  {
    if k > 0 {
      ShiftLeft(x, k - 1);
      DivDiv(x, Pow10(k - 1), 10.0);
      assert Pow10(k - 1) * 10.0 == Pow10(k);
    }
  }

  /** A decimal numeral with no sign is read back as the number it renders. */
  lemma UnsignedDecimalOfNat(n: nat)
    ensures ParseUnsignedDecimal(NatToString(n)) == Some(n as real)
  {
    var digits := NatToString(n);
    DigitRunAll(digits, 10);
    assert digits[..|digits|] == digits;
    assert digits[|digits|..] == [];
    NatToStringValue(n);
  }

  /** `parseFloat(String(n)) == n` for every integer `n`. */
  lemma ParseFloatOfInt(n: int)
    ensures ParseFloat(IntToString(n)) == Some(n as real)
  {
    SignedNumeral(n);
    UnsignedDecimalOfNat(if n < 0 then -n else n);
  }

  /** The unsigned part of `parseFloat` on `a.d` followed by text that
      neither continues the fraction nor starts an exponent. */
  /** `ParseUnsignedDecimal` on text of the shape `i`, then an optional
      point and `f`, then `rest`, where `i` and `f` are the digit runs. */
  lemma UnsignedDecimalPieces(u: string, i: string, dot: bool, f: string, rest: string)
    requires AllDigits(i, 10) && AllDigits(f, 10)
    requires DigitRun(u, 10) == |i| && u[..|i|] == i
    requires dot <==> |i| < |u| && u[|i|] == '.'
    requires dot ==> DigitRun(u[|i| + 1..], 10) == |f| && u[|i| + 1..][..|f|] == f && u[|i| + 1..][|f|..] == rest
    requires !dot ==> f == [] && u[|i|..] == rest
    requires |i| > 0 || |f| > 0
    ensures ParseUnsignedDecimal(u) == Some(DecimalValue(i, f, rest))
  {
    if !dot {
      assert DigitRun([], 10) == 0;
    }
  }

  /** `w.d` followed by `t` splits into the runs `w` and `d` and the rest `t`. */
  lemma FractionPieces(w: string, d: string, t: string)
    requires AllDigits(w, 10) && |d| > 0 && AllDigits(d, 10)
    requires t == [] || !('0' <= t[0] <= '9')
    ensures ParseUnsignedDecimal(w + "." + d + t) == Some(DecimalValue(w, d, t))
  {
    var u := w + "." + d + t;
    assert u == w + ("." + d + t);
    DigitRunStops(w, "." + d + t, 10);
    var frac := u[|w| + 1..];
    assert frac == d + t;
    DigitRunStops(d, t, 10);
    assert frac[..|d|] == d && frac[|d|..] == t;
    assert u[..|w|] == w;
    UnsignedDecimalPieces(u, w, true, d, t);
  }

  lemma DecimalValueWithoutExponent(i: string, f: string, rest: string)
    requires AllDigits(i, 10) && AllDigits(f, 10)
    requires rest == [] || (rest[0] != 'e' && rest[0] != 'E')
    ensures DecimalValue(i, f, rest) == Mantissa(i, f)
  {
    assert ExponentOf(rest) == 0;
  }

  /** Digits `i`, a point and digits `f` stand for `i + f / 10^|f|`. */
  lemma MantissaValue(i: string, f: string)
    requires AllDigits(i, 10) && AllDigits(f, 10)
    ensures Mantissa(i, f) == DigitsValue(i, 10) as real + DigitsValue(f, 10) as real / Pow10(|f|)
  {
    ShiftLeft(DigitsValue(f, 10) as real, |f|);
  }

  /** `parseFloat` reads a decimal fraction `w.d`, with its sign, and
      ignores what follows it: "-2.5" gives -2.5, ".75 pts" gives 0.75. The
      value `Mantissa(w, d)` is `w + d / 10^|d|` by `MantissaValue`. */
  lemma {:induction false} ParseFloatFraction(negative: bool, w: string, d: string, t: string)
    requires AllDigits(w, 10) && |d| > 0 && AllDigits(d, 10)
    requires t == [] || (!('0' <= t[0] <= '9') && t[0] != 'e' && t[0] != 'E')
    ensures ParseFloat((if negative then "-" else "") + (w + "." + d + t))
              == Some(if negative then -Mantissa(w, d) else Mantissa(w, d))
  {
    FractionSigned(negative, w, d, t, Mantissa(w, d));
  }

  lemma FractionSigned(negative: bool, w: string, d: string, t: string, v: real)
    requires AllDigits(w, 10) && |d| > 0 && AllDigits(d, 10)
    requires t == [] || (!('0' <= t[0] <= '9') && t[0] != 'e' && t[0] != 'E')
    requires Mantissa(w, d) == v
    ensures ParseFloat((if negative then "-" else "") + (w + "." + d + t)) == Some(if negative then -v else v)
  {
    FractionPieces(w, d, t);
    DecimalValueWithoutExponent(w, d, t);
    ParseFloatSigned(negative, w + "." + d + t, v);
  }

  lemma ParseFloatSigned(negative: bool, body: string, m: real)
    requires ParseUnsignedDecimal(body) == Some(m)
    ensures ParseFloat((if negative then "-" else "") + body) == Some(if negative then -m else m)
  {
    var s := (if negative then "-" else "") + body;
    assert DecimalLead(body);
    var c := s[0];
    assert c == '-' || c == '.' || '0' <= c <= '9';
    assert !IsSpace(c);
    assert SkipSpace(s) == s;
    if negative {
      assert s[1..] == body;
    }
    assert SplitSign(s) == (negative, body);
    ParseFloatOfParts(s, negative, body, m);
    assert ParseFloat(s).value == if negative then -m else m;
  }

  lemma ParseFloatOfParts(s: string, negative: bool, u: string, m: real)
    requires SplitSign(SkipSpace(s)) == (negative, u) && ParseUnsignedDecimal(u) == Some(m)
    ensures ParseFloat(s) == Some(if negative then -m else m)
  {
    var r := ParseFloat(s);
    assert r.Some?;
    assert r.value == if negative then -m else m;
  }

  /** An exponent part: `e`, an optional minus sign, the digits `e` and
      text that does not continue them. */
  lemma ExponentOfParts(negative: bool, e: string, t: string)
    requires |e| > 0 && AllDigits(e, 10)
    requires t == [] || !('0' <= t[0] <= '9')
    ensures ExponentOf("e" + ((if negative then "-" else "") + e + t)) == Signed(negative, DigitsValue(e, 10))
  {
    var rest := "e" + ((if negative then "-" else "") + e + t);
    SignedDigits(negative, e, t);
    assert rest[1..] == (if negative then "-" else "") + e + t;
    ExponentOfSplit(rest, negative, e, t);
  }

  lemma SignedDigits(negative: bool, e: string, t: string)
    requires |e| > 0 && AllDigits(e, 10)
    ensures SplitSign((if negative then "-" else "") + e + t) == (negative, e + t)
  {
    var signed := (if negative then "-" else "") + e + t;
    if negative {
      assert signed[0] == '-' && signed[1..] == e + t;
    } else {
      assert signed == e + t && signed[0] == e[0] && IsDigitIn(e[0], 10);
    }
  }

  lemma ExponentOfSplit(rest: string, negative: bool, e: string, t: string)
    requires |e| > 0 && AllDigits(e, 10)
    requires t == [] || !('0' <= t[0] <= '9')
    requires |rest| > 0 && rest[0] == 'e' && SplitSign(rest[1..]) == (negative, e + t)
    ensures ExponentOf(rest) == Signed(negative, DigitsValue(e, 10))
  {
    DigitRunStops(e, t, 10);
    assert (e + t)[..|e|] == e;
  }

  /** Digits `w` followed by an exponent part split into the run `w` and
      the rest. */
  lemma ExponentPieces(w: string, rest: string)
    requires |w| > 0 && AllDigits(w, 10) && |rest| > 0 && rest[0] == 'e'
    ensures ParseUnsignedDecimal(w + rest) == Some(DecimalValue(w, [], rest))
  {
    var u := w + rest;
    DigitRunStops(w, rest, 10);
    assert u[..|w|] == w && u[|w|..] == rest;
    UnsignedDecimalPieces(u, w, false, [], rest);
  }

  lemma WholeShifted(i: string, rest: string, e: int)
    requires AllDigits(i, 10) && ExponentOf(rest) == e
    ensures DecimalValue(i, [], rest) == Shift(DigitsValue(i, 10) as real, e)
  {
    assert Mantissa(i, []) == DigitsValue(i, 10) as real;
  }

  /** `parseFloat` reads an exponent: "1e3" gives 1000, "25e-1" gives 2.5,
      and text after the exponent's digits is ignored. `Shift` moves the
      point: a product with a power of ten by `ShiftRight`, a quotient by
      `ShiftLeft`. */
  lemma {:induction false} ParseFloatExponent(w: string, negative: bool, e: string, t: string)
    requires |w| > 0 && AllDigits(w, 10) && |e| > 0 && AllDigits(e, 10)
    requires t == [] || !('0' <= t[0] <= '9')
    ensures ParseFloat(w + ("e" + ((if negative then "-" else "") + e + t)))
              == Some(Shift(DigitsValue(w, 10) as real, Signed(negative, DigitsValue(e, 10))))
  {
    var rest := "e" + ((if negative then "-" else "") + e + t);
    ExponentPieces(w, rest);
    ExponentOfParts(negative, e, t);
    WholeShifted(w, rest, Signed(negative, DigitsValue(e, 10)));
    ParseFloatSigned(false, w + rest, DecimalValue(w, [], rest));
    assert "" + (w + rest) == w + rest;
  }

  /** `parseFloat(cell)` on a spreadsheet cell; a number is read back as
      itself, a boolean is NaN. */
  function CellToFloat(c: Cell): (r: Option<real>)
    ensures c.Num? ==> r == Some(c.x)
    ensures c.Text? ==> r == ParseFloat(c.s)
    ensures c.Bool? ==> r.None?
  {
    match c
    case Num(x) => Some(x)
    case Text(s) => ParseFloat(s)
    case Bool(_) => None
  }

  /** `parseFloat(cell) || 0`: NaN becomes 0, any other number is kept. */
  function CellToFloatOrZero(c: Cell): (x: real)
    ensures CellToFloat(c).None? ==> x == 0.0
    ensures CellToFloat(c).Some? ==> x == CellToFloat(c).value
  {
    match CellToFloat(c)
    case Some(x) => x
    case None => 0.0
  }

  // ---------------------------------------------------------------------
  // Arithmetic shared by the tools
  // ---------------------------------------------------------------------

  lemma CastProduct(a: int, b: int)
    ensures (a * b) as real == a as real * b as real
  {
  }

  /** Dividing by n and then by d is dividing by their product. */
  lemma DivDiv(x: real, n: real, d: real)
    requires n > 0.0 && d > 0.0
    ensures (x / n) / d == x / (n * d)
  {
    var q := x / (n * d);
    assert q * (n * d) == x;
    assert (q * d) * n == x;
    assert x / n == q * d;
  }

  /** Division by a positive number keeps order. */
  lemma DivMonoPos(x: real, y: real, d: real)
    requires d > 0.0 && x <= y
    ensures x / d <= y / d
  {
    var a, b := x / d, y / d;
    assert a * d == x && b * d == y;
    assert (b - a) * d == y - x;
  }

  lemma DivSelf(d: real)
    requires d > 0.0
    ensures d / d == 1.0 && 0.0 / d == 0.0
  {
  }
}
