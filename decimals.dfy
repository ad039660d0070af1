/**
 * Decimal numerals as Java and Python read and write doubles: Java's
 * `Double.toString` (plain "123.45", or "1.2345E8" outside [10^-3, 10^7)),
 * Java's `Double.parseDouble` and Python's `float()` on finite decimal input.
 */
module Decimals {
  import opened Wrappers
  import opened Text

  /**
   * A decimal numeral: sign, whole part, the fraction digits after the point
   * and the power of ten written after 'E' (0 when there is none).
   */
  datatype Decimal = Decimal(negative: bool, whole: nat, fraction: seq<Digit>, exponent: int)

  function FracValue(f: seq<Digit>): (r: real)
    ensures 0.0 <= r <= 1.0
  {
    if f == [] then 0.0 else (f[0] as real + FracValue(f[1..])) / 10.0
  }

  /** 10 raised to an integer power. */
  function Pow10(e: int): (r: real)
    ensures r > 0.0
    ensures e >= 1 ==> r >= 10.0
    decreases if e >= 0 then e else -e
  {
    if e == 0 then 1.0 else if e > 0 then 10.0 * Pow10(e - 1) else Pow10(e + 1) / 10.0
  }

  function Value(d: Decimal): real {
    var magnitude := (d.whole as real + FracValue(d.fraction)) * Pow10(d.exponent);
    if d.negative then -magnitude else magnitude
  }

  function DigitString(f: seq<Digit>): (s: string)
    ensures |s| == |f| && AllDigits(s)
    ensures forall i :: 0 <= i < |f| ==> s[i] == DigitChar(f[i])
  {
    if f == [] then "" else [DigitChar(f[0])] + DigitString(f[1..])
  }

  /** The exponent part Java prints: nothing for plain notation, otherwise 'E' and the signed power. */
  function ExponentText(e: int): string {
    if e == 0 then "" else "E" + IntToString(e)
  }

  /** Java's "x + \"\"" for a finite double: at least one fraction digit, and an exponent when it is not 0. */
  function Print(d: Decimal): string {
    (if d.negative then "-" else "") + NatToString(d.whole) + "." + DigitString(d.fraction) + ExponentText(d.exponent)
  }

  /** String.trim: drops leading and trailing characters up to U+0020. */
  function Trim(s: string): (t: string)
    ensures |t| <= |s|
  {
    if s != [] && s[0] <= ' ' then Trim(s[1..])
    else if s != [] && s[|s| - 1] <= ' ' then Trim(s[..|s| - 1])
    else s
  }

  predicate IsExponentMark(c: char) { c == 'e' || c == 'E' }

  /** The position of the first 'e' or 'E' at or after i, or the length when there is none. */
  function ExponentMark(s: string, i: nat): (k: nat)
    requires i <= |s|
    ensures i <= k <= |s|
    ensures k < |s| ==> IsExponentMark(s[k])
    ensures forall j :: i <= j < k ==> !IsExponentMark(s[j])
    decreases |s| - i
  {
    if i == |s| || IsExponentMark(s[i]) then i else ExponentMark(s, i + 1)
  }

  /** The power after the mark: an optional sign and at least one digit. */
  function ParseExponent(x: string): Option<int> {
    if |x| > 0 && x[0] == '+' then
      match ParseNat(x[1..])
      case Some(n) => Some(n)
      case None => None
    else ParseInt(x)
  }

  /**
   * A numeral without surrounding blanks: optional sign, digits with at most
   * one point and at least one digit, then optionally 'e' or 'E' and a signed
   * power.
   */
  function Numeral(t: string): Option<Decimal> {
    var negative := |t| > 0 && t[0] == '-';
    SignedBody(negative, if |t| > 0 && (t[0] == '-' || t[0] == '+') then t[1..] else t)
  }

  /** The numeral after its sign: mantissa up to the first mark, then the power after it. */
  function SignedBody(negative: bool, body: string): Option<Decimal> {
    var k := ExponentMark(body, 0);
    match ParseUnsigned(body[..k])
    case None => None
    case Some(mag) =>
      match (if k == |body| then Some(0) else ParseExponent(body[k + 1..]))
      case None => None
      case Some(e) => Some(Decimal(negative, mag.0, mag.1, e))
  }

  /** Python's float() on finite decimal input, after trimming: the numeral, or ValueError. */
  function Parse(s: string): Result<Decimal> {
    match Numeral(Trim(s))
    case Some(d) => Ok(d)
    case None => Err(NumberFormat(s))
  }

  predicate IsTypeSuffix(c: char) { c == 'f' || c == 'F' || c == 'd' || c == 'D' }

  /** Double.parseDouble on finite decimal input: Python's grammar plus one optional type suffix. */
  function JavaParse(s: string): Result<Decimal> {
    var t := Trim(s);
    match Numeral(t)
    case Some(d) => Ok(d)
    case None =>
      if |t| > 0 && IsTypeSuffix(t[|t| - 1]) && Numeral(t[..|t| - 1]).Some? then Ok(Numeral(t[..|t| - 1]).value)
      else Err(NumberFormat(s))
  }

  /** The unsigned numeral after the sign: whole value and fraction digits, or None when malformed. */
  function ParseUnsigned(body: string): Option<(nat, seq<Digit>)> {
    Scan(body, 0, 0, None, 0)
  }

  /**
   * Reads body from position i on: digits before the point extend the whole
   * part, digits after it the fraction; a second point or any other
   * character makes the numeral malformed, and so does one without a digit.
   */
  function Scan(body: string, i: nat, whole: nat, fraction: Option<seq<Digit>>, digits: nat): Option<(nat, seq<Digit>)>
    requires i <= |body|
    decreases |body| - i
  {
    if i == |body| then
      if digits == 0 then None else Some((whole, if fraction.Some? then fraction.value else []))
    else if IsDigitChar(body[i]) then
      if fraction.None? then Scan(body, i + 1, whole * 10 + CharDigit(body[i]), None, digits + 1)
      else Scan(body, i + 1, whole, Some(fraction.value + [CharDigit(body[i])]), digits + 1)
    else if body[i] == '.' && fraction.None? then Scan(body, i + 1, whole, Some([]), digits)
    else None
  }

  /** Reading the digits of the whole part accumulates their value. */
  lemma {:induction false} ScanWhole(body: string, i: nat, j: nat)
    requires i <= j <= |body| && AllDigits(body[..j])
    ensures AllDigits(body[..i])
    ensures Scan(body, i, DigitsValue(body[..i]), None, i) == Scan(body, j, DigitsValue(body[..j]), None, j)
    decreases j - i
  {
    assert forall k :: 0 <= k < i ==> body[..i][k] == body[..j][k];
    if i < j {
      ScanWhole(body, i + 1, j);
      assert body[..i + 1][..i] == body[..i];
      assert body[i] == body[..j][i];
    }
  }

  lemma DigitCharInjective(a: Digit, b: Digit)
    requires DigitChar(a) == DigitChar(b)
    ensures a == b
  {
    assert DigitChar(a) as int == 48 + a;
    assert DigitChar(b) as int == 48 + b;
  }

  lemma AppendHead<T>(a: seq<T>, g: seq<T>)
    requires |g| > 0
    ensures a + [g[0]] + g[1..] == a + g
  {
    assert [g[0]] + g[1..] == g;
  }

  /** Reading the printed fraction digits appends them to the fraction. */
  lemma {:induction false} ScanFraction(body: string, i: nat, whole: nat, fr: seq<Digit>, digits: nat, g: seq<Digit>)
    requires i <= |body| && body[i..] == DigitString(g) && digits + |g| >= 1
    ensures Scan(body, i, whole, Some(fr), digits) == Some((whole, fr + g))
    decreases |body| - i
  {
    if i < |body| {
      var rest := DigitString(g[1..]);
      assert DigitString(g) == [DigitChar(g[0])] + rest;
      assert body[i] == DigitChar(g[0]) by {
        assert body[i..][0] == body[i];
      }
      assert body[i + 1..] == rest by {
        assert body[i + 1..] == body[i..][1..];
      }
      DigitCharInjective(CharDigit(body[i]), g[0]);
      assert Scan(body, i, whole, Some(fr), digits) == Scan(body, i + 1, whole, Some(fr + [g[0]]), digits + 1);
      ScanFraction(body, i + 1, whole, fr + [g[0]], digits + 1, g[1..]);
      AppendHead(fr, g);
    } else {
      assert |g| == |DigitString(g)| == 0;
      assert fr + g == fr;
    }
  }

  lemma TrimNoOp(s: string)
    requires |s| > 0 && s[0] > ' ' && s[|s| - 1] > ' '
    ensures Trim(s) == s
  {
  }

  lemma ParseUnsignedPrinted(whole: nat, f: seq<Digit>)
    ensures ParseUnsigned(NatToString(whole) + "." + DigitString(f)) == Some((whole, f))
  {
    var w := NatToString(whole);
    var fs := DigitString(f);
    var body := w + "." + fs;
    assert body[..|w|] == w;
    assert body[..0] == [];
    ScanWhole(body, 0, |w|);
    DigitsValueOfNatToString(whole);
    assert body[|w|] == '.';
    assert Scan(body, |w|, whole, None, |w|) == Scan(body, |w| + 1, whole, Some([]), |w|);
    assert body[|w| + 1..] == fs;
    ScanFraction(body, |w| + 1, whole, [], |w|, f);
    assert [] + f == f;
  }

  /** A printed power reads back. */
  lemma ParseExponentPrinted(e: int)
    ensures ParseExponent(IntToString(e)) == Some(e)
  {
    IntRoundTrip(e);
    var s := IntToString(e);
    if e >= 0 {
      assert s[0] == NatToString(e)[0];
      assert IsDigitChar(s[0]);
    }
  }

  /** The printed exponent part is empty, or 'E' followed by a power ending in a digit. */
  lemma ExponentTextShape(e: int)
    ensures e == 0 <==> ExponentText(e) == ""
    ensures e != 0 ==> ExponentText(e)[0] == 'E' && ExponentText(e)[1..] == IntToString(e)
    ensures e != 0 ==> IsDigitChar(ExponentText(e)[|ExponentText(e)| - 1])
  {
    if e != 0 {
      var n := NatToString(if e < 0 then -e else e);
      assert IntToString(e)[|IntToString(e)| - 1] == n[|n| - 1];
    }
  }

  /** A string of digits and points holds no exponent mark. */
  lemma NoMarkInMantissa(w: string, fs: string)
    requires AllDigits(w) && AllDigits(fs)
    ensures forall j :: 0 <= j < |w + "." + fs| ==> !IsExponentMark((w + "." + fs)[j])
  {
    var m := w + "." + fs;
    forall j | 0 <= j < |m|
      ensures !IsExponentMark(m[j])
    {
      if j < |w| {
        assert m[j] == w[j];
      } else if j > |w| {
        assert m[j] == fs[j - |w| - 1];
      }
    }
  }

  /** The first mark sits where the mark-free prefix ends, when a mark or the end follows it. */
  lemma MarkAfter(m: string, x: string)
    requires forall j :: 0 <= j < |m| ==> !IsExponentMark(m[j])
    requires x == "" || IsExponentMark(x[0])
    ensures ExponentMark(m + x, 0) == |m|
  {
    var s := m + x;
    var k := ExponentMark(s, 0);
    if |x| > 0 {
      assert s[|m|] == x[0];
    }
    assert forall j :: 0 <= j < |m| ==> s[j] == m[j];
  }

  /** A body whose first mark ends a well-formed mantissa and starts a well-formed power reads back as both. */
  lemma SignedBodyOf(negative: bool, m: string, x: string, mag: (nat, seq<Digit>), e: int)
    requires ExponentMark(m + x, 0) == |m| && ParseUnsigned(m) == Some(mag)
    requires x == "" ==> e == 0
    requires x != "" ==> ParseExponent(x[1..]) == Some(e)
    ensures SignedBody(negative, m + x) == Some(Decimal(negative, mag.0, mag.1, e))
  {
    var body := m + x;
    assert body[..|m|] == m;
    if x != "" {
      assert body[|m| + 1..] == x[1..];
    }
  }

  /** The unsigned body of a printed numeral reads back as its whole part, fraction and power. */
  lemma BodyOfPrinted(d: Decimal)
    requires |d.fraction| >= 1
    ensures SignedBody(d.negative, NatToString(d.whole) + "." + DigitString(d.fraction) + ExponentText(d.exponent)) == Some(d)
  {
    var m := NatToString(d.whole) + "." + DigitString(d.fraction);
    var x := ExponentText(d.exponent);
    ExponentTextShape(d.exponent);
    NoMarkInMantissa(NatToString(d.whole), DigitString(d.fraction));
    MarkAfter(m, x);
    ParseUnsignedPrinted(d.whole, d.fraction);
    if x != "" {
      ParseExponentPrinted(d.exponent);
    }
    SignedBodyOf(d.negative, m, x, (d.whole, d.fraction), d.exponent);
  }

  lemma EndsOfConcat(a: string, b: string)
    ensures |b| > 0 ==> (a + b)[|a + b| - 1] == b[|b| - 1]
    ensures |a| > 0 ==> (a + b)[0] == a[0]
  {
  }

  /** A sign, then digits, a point, digits and an exponent ending in a digit: the body starts with a digit, and neither end is a blank. */
  lemma NumeralEnds(sign: string, w: string, fs: string, x: string)
    requires sign == "" || sign == "-"
    requires |w| >= 1 && IsDigitChar(w[0]) && |fs| >= 1 && IsDigitChar(fs[|fs| - 1])
    requires x == "" || IsDigitChar(x[|x| - 1])
    ensures var body := w + "." + fs + x;
      && IsDigitChar(body[0]) && (sign + body)[0] > ' ' && (sign + body)[|sign + body| - 1] > ' '
  {
    var body := w + "." + fs + x;
    assert body[0] == w[0];
    EndsOfConcat(sign, body);
    if x == "" {
      assert body == (w + ".") + fs;
      EndsOfConcat(w + ".", fs);
    } else {
      EndsOfConcat(w + "." + fs, x);
    }
  }

  /** A printed numeral is a sign followed by its body, with no blank at either end. */
  lemma PrintShape(d: Decimal)
    requires |d.fraction| >= 1
    ensures var body := NatToString(d.whole) + "." + DigitString(d.fraction) + ExponentText(d.exponent);
      && Print(d) == (if d.negative then "-" else "") + body
      && IsDigitChar(body[0])
      && Print(d)[0] > ' ' && Print(d)[|Print(d)| - 1] > ' '
  {
    var w := NatToString(d.whole);
    var fs := DigitString(d.fraction);
    var x := ExponentText(d.exponent);
    ExponentTextShape(d.exponent);
    var sign := if d.negative then "-" else "";
    assert IsDigitChar(w[0]) && IsDigitChar(fs[|fs| - 1]);
    NumeralEnds(sign, w, fs, x);
    SignBeforeBody(sign, w, fs, x);
  }

  /** Print's left-nested concatenation is the sign before the body. */
  lemma SignBeforeBody(sign: string, w: string, fs: string, x: string)
    ensures sign + w + "." + fs + x == sign + (w + "." + fs + x)
  {
  }

  /** A printed numeral is its own numeral: trimming keeps it, and its sign and body read back. */
  lemma NumeralOfPrinted(d: Decimal)
    requires |d.fraction| >= 1
    ensures Trim(Print(d)) == Print(d)
    ensures Numeral(Print(d)) == Some(d)
  {
    var body := NatToString(d.whole) + "." + DigitString(d.fraction) + ExponentText(d.exponent);
    var p := Print(d);
    PrintShape(d);
    TrimNoOp(p);
    assert (if |p| > 0 && (p[0] == '-' || p[0] == '+') then p[1..] else p) == body;
    BodyOfPrinted(d);
  }

  /** Parsing what Print produced gives back the same numeral, in Python's reading and in Java's. */
  lemma ParsePrint(d: Decimal)
    requires |d.fraction| >= 1
    ensures Parse(Print(d)) == Ok(d)
    ensures JavaParse(Print(d)) == Ok(d)
  {
    NumeralOfPrinted(d);
  }

  /** Double.parseDouble as a real number, on the finite decimal input modelled here. */
  function ParseDouble(s: string): Result<real> {
    match JavaParse(s)
    case Ok(d) => Ok(Value(d))
    case Err(e) => Err(e)
  }
}
