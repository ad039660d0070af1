/**
 * Strings as the Python and Java sources use them: decimal printing and parsing of
 * integers, substring search, Python's str.replace with an empty replacement and
 * Java's String.split with a literal delimiter.
 */
module Text {
  import opened Wrappers

  type Digit = d: int | 0 <= d < 10

  predicate IsDigitChar(c: char) { '0' <= c <= '9' }

  predicate AllDigits(s: string) { forall i :: 0 <= i < |s| ==> IsDigitChar(s[i]) }

  function DigitChar(d: Digit): (c: char)
    ensures IsDigitChar(c)
  {
    (48 + d) as char
  }

  function CharDigit(c: char): (d: Digit)
    requires IsDigitChar(c)
    ensures DigitChar(d) == c
  {
    c as int - 48
  }

  // ---------------------------------------------------------------------------
  // Integers (Python str(int) / int(str), Java String.valueOf / Integer.parseInt)
  // ---------------------------------------------------------------------------

  /** Decimal digits of n, most significant first, with no leading zero. */
  function NatToString(n: nat): (s: string)
    ensures 1 <= |s| && AllDigits(s)
    ensures |s| > 1 ==> s[0] != '0'
  {
    if n < 10 then [DigitChar(n)] else NatToString(n / 10) + [DigitChar(n % 10)]
  }

  /** The number a non-empty run of decimal digits denotes. */
  function DigitsValue(s: string): nat
    requires AllDigits(s)
  {
    if s == [] then 0 else DigitsValue(s[..|s| - 1]) * 10 + CharDigit(s[|s| - 1])
  }

  function ParseNat(s: string): Option<nat> {
    if s != [] && AllDigits(s) then Some(DigitsValue(s)) else None
  }

  function IntToString(i: int): (s: string)
    ensures 1 <= |s|
  {
    if i < 0 then "-" + NatToString(-i) else NatToString(i)
  }

  function ParseInt(s: string): Option<int> {
    if |s| > 0 && s[0] == '-' then
      match ParseNat(s[1..])
      case Some(n) => Some(0 - n as int)
      case None => None
    else
      match ParseNat(s)
      case Some(n) => Some(n)
      case None => None
  }

  /** The range of Java's int. */
  const IntMin: int := -0x8000_0000
  const IntMax: int := 0x7fff_ffff

  /** Java's Integer.parseInt: an optional sign, decimal digits, and a value that fits in an int. */
  function JavaParseInt(s: string): (r: Result<int>)
    ensures r.Ok? ==> IntMin <= r.value <= IntMax
    ensures r.Err? ==> r.error == NumberFormat(s)
  {
    var signed := |s| > 0 && (s[0] == '-' || s[0] == '+');
    var digits := if signed then s[1..] else s;
    match ParseNat(digits)
    case None => Err(NumberFormat(s))
    case Some(n) =>
      var v := if signed && s[0] == '-' then 0 - n else n;
      if IntMin <= v <= IntMax then Ok(v) else Err(NumberFormat(s))
  }

  lemma {:induction false} DigitsValueOfNatToString(n: nat)
    ensures DigitsValue(NatToString(n)) == n
  {
    if n >= 10 {
      var s := NatToString(n);
      assert s[..|s| - 1] == NatToString(n / 10);
      DigitsValueOfNatToString(n / 10);
    }
  }

  /** Printing a natural number and parsing it back gives the number. */
  lemma NatRoundTrip(n: nat)
    ensures ParseNat(NatToString(n)) == Some(n)
  {
    DigitsValueOfNatToString(n);
  }

  /** Printing an integer and parsing it back gives the integer. */
  lemma IntRoundTrip(i: int)
    ensures ParseInt(IntToString(i)) == Some(i)
  {
    var s := IntToString(i);
    if i < 0 {
      assert s[0] == '-' && s[1..] == NatToString(-i);
      NatRoundTrip(-i);
      assert ParseNat(s[1..]) == Some(-i);
    } else {
      assert s == NatToString(i);
      NatRoundTrip(i);
      assert s[0] != '-' && ParseNat(s) == Some(i);
    }
  }

  /** Integer.parseInt reads back every int as printed, and refuses every printed value outside the int range. */
  lemma JavaParseIntPrinted(i: int)
    ensures JavaParseInt(IntToString(i)) == (if IntMin <= i <= IntMax then Ok(i) else Err(NumberFormat(IntToString(i))))
  {
    var s := IntToString(i);
    if i < 0 {
      assert s[1..] == NatToString(-i);
      NatRoundTrip(-i);
    } else {
      NatRoundTrip(i);
      assert NatToString(i)[0] != '-' && NatToString(i)[0] != '+';
    }
  }

  /** Distinct numbers print differently. */
  lemma NatToStringInjective(m: nat, n: nat)
    requires NatToString(m) == NatToString(n)
    ensures m == n
  {
    NatRoundTrip(m);
    NatRoundTrip(n);
  }

  /** Python's int() on a float: truncation toward zero. */
  function Trunc(x: real): (r: int)
    ensures x >= 0.0 ==> r as real <= x < r as real + 1.0
    ensures x < 0.0 ==> r as real - 1.0 < x <= r as real
  {
    if x >= 0.0 then x.Floor else -((-x).Floor)
  }

  // ---------------------------------------------------------------------------
  // Substring search (Java indexOf / lastIndexOf / contains, Python "in")
  // ---------------------------------------------------------------------------

  predicate OccursAt(s: string, pat: string, i: int) {
    0 <= i && i + |pat| <= |s| && s[i..i + |pat|] == pat
  }

  function IndexFrom(s: string, pat: string, i: nat): (r: int)
    requires i <= |s|
    ensures r == -1 || (i <= r && OccursAt(s, pat, r))
    ensures r == -1 ==> forall j :: i <= j <= |s| ==> !OccursAt(s, pat, j)
    ensures r != -1 ==> forall j :: i <= j < r ==> !OccursAt(s, pat, j)
    decreases |s| - i
  {
    if OccursAt(s, pat, i) then i
    else if i == |s| then -1
    else IndexFrom(s, pat, i + 1)
  }

  /** Index of the first occurrence of pat in s, or -1 when there is none. */
  function IndexOf(s: string, pat: string): (r: int)
    ensures -1 <= r <= |s|
  {
    IndexFrom(s, pat, 0)
  }

  function LastIndexFrom(s: string, pat: string, i: nat): (r: int)
    requires i <= |s|
    ensures r == -1 || (r <= i && OccursAt(s, pat, r))
    ensures r == -1 ==> forall j :: 0 <= j <= i ==> !OccursAt(s, pat, j)
    ensures r != -1 ==> forall j :: r < j <= i ==> !OccursAt(s, pat, j)
  {
    if OccursAt(s, pat, i) then i
    else if i == 0 then -1
    else LastIndexFrom(s, pat, i - 1)
  }

  /** Index of the last occurrence of pat in s, or -1 when there is none. */
  function LastIndexOf(s: string, pat: string): (r: int)
    ensures -1 <= r <= |s|
  {
    LastIndexFrom(s, pat, |s|)
  }

  predicate Contains(s: string, pat: string) {
    IndexOf(s, pat) >= 0
  }

  lemma ContainsIff(s: string, pat: string)
    ensures Contains(s, pat) <==> exists j :: 0 <= j <= |s| && OccursAt(s, pat, j)
  {
    if Contains(s, pat) {
      assert OccursAt(s, pat, IndexOf(s, pat));
    }
  }

  lemma OccursAtContains(s: string, pat: string, j: int)
    requires OccursAt(s, pat, j)
    ensures Contains(s, pat)
  {
    ContainsIff(s, pat);
  }

  // ---------------------------------------------------------------------------
  // Python str.replace(pat, "")
  // ---------------------------------------------------------------------------

  /** Removes the non-overlapping occurrences of pat met scanning left to right. */
  function RemoveAll(s: string, pat: string): string
    requires |pat| > 0
  {
    if |s| < |pat| then s
    else if s[..|pat|] == pat then RemoveAll(s[|pat|..], pat)
    else [s[0]] + RemoveAll(s[1..], pat)
  }

  /** A string without any occurrence of pat is left unchanged. */
  lemma {:induction false} RemoveAllAbsent(s: string, pat: string)
    requires |pat| > 0
    requires forall j :: 0 <= j <= |s| ==> !OccursAt(s, pat, j)
    ensures RemoveAll(s, pat) == s
  {
    if |s| >= |pat| {
      assert !OccursAt(s, pat, 0);
      assert s[..|pat|] != pat;
      forall j | 0 <= j <= |s[1..]| ensures !OccursAt(s[1..], pat, j) {
        if OccursAt(s[1..], pat, j) {
          assert s[1..][j..j + |pat|] == s[j + 1..j + 1 + |pat|];
          assert OccursAt(s, pat, j + 1);
        }
      }
      RemoveAllAbsent(s[1..], pat);
    }
  }

  /** Removing a one-character pattern leaves no occurrence of that character. */
  lemma {:induction false} RemoveCharGone(s: string, c: char)
    ensures forall i :: 0 <= i < |RemoveAll(s, [c])| ==> RemoveAll(s, [c])[i] != c
  {
    if |s| >= 1 {
      RemoveCharGone(s[1..], c);
    }
  }

  // ---------------------------------------------------------------------------
  // Java String.split with a literal delimiter
  // ---------------------------------------------------------------------------

  /** All fields of s between the non-overlapping occurrences of delim met left to right, empty ones kept. */
  function Fields(s: string, delim: string): (r: seq<string>)
    requires |delim| > 0
    ensures |r| >= 1
    decreases |s|
  {
    var k := IndexOf(s, delim);
    if k < 0 then [s] else [s[..k]] + Fields(s[k + |delim|..], delim)
  }

  function Join(fs: seq<string>, delim: string): string {
    if |fs| == 0 then ""
    else if |fs| == 1 then fs[0]
    else fs[0] + delim + Join(fs[1..], delim)
  }

  /** Joining the fields with the delimiter gives the original string back. */
  lemma {:induction false} FieldsJoin(s: string, delim: string)
    requires |delim| > 0
    ensures Join(Fields(s, delim), delim) == s
    decreases |s|
  {
    var k := IndexOf(s, delim);
    if k >= 0 {
      var rest := s[k + |delim|..];
      var tail := Fields(rest, delim);
      var fs := [s[..k]] + tail;
      assert Fields(s, delim) == fs;
      assert fs[1..] == tail;
      assert Join(fs, delim) == s[..k] + delim + Join(tail, delim);
      FieldsJoin(rest, delim);
      assert s[k..k + |delim|] == delim;
      assert s == s[..k] + s[k..k + |delim|] + rest;
    }
  }

  function DropTrailingEmpty(fs: seq<string>): (r: seq<string>)
    ensures |r| <= |fs| && r == fs[..|r|]
    ensures r != [] ==> r[|r| - 1] != ""
    ensures forall i :: |r| <= i < |fs| ==> fs[i] == ""
  {
    if fs != [] && fs[|fs| - 1] == "" then DropTrailingEmpty(fs[..|fs| - 1]) else fs
  }

  /** Java's s.split(delim) for a delimiter without regular-expression metacharacters. */
  function JavaSplit(s: string, delim: string): seq<string>
    requires |delim| > 0
  {
    if IndexOf(s, delim) < 0 then [s] else DropTrailingEmpty(Fields(s, delim))
  }

  /** The string does not contain the character c. */
  predicate Free(s: string, c: char) {
    forall i :: 0 <= i < |s| ==> s[i] != c
  }

  lemma AbsentIndex(s: string, c: char)
    requires Free(s, c)
    ensures IndexOf(s, [c]) == -1
  {
    forall j | 0 <= j < |s| ensures !OccursAt(s, [c], j) {
      assert s[j..j + 1] == [s[j]];
    }
  }

  /** The first c in f + [c] + rest is the one right after f. */
  lemma DelimAfterField(f: string, c: char, rest: string)
    requires Free(f, c)
    ensures IndexOf(f + [c] + rest, [c]) == |f|
  {
    var s := f + [c] + rest;
    assert s[|f|..|f| + 1] == [c];
    assert OccursAt(s, [c], |f|);
    forall j | 0 <= j < |f| ensures !OccursAt(s, [c], j) {
      assert s[j..j + 1] == [f[j]];
    }
  }

  /** Splitting fields joined by a character none of them contains gives the fields back. */
  lemma {:induction false} FieldsOfJoin(fs: seq<string>, c: char)
    requires |fs| >= 1 && forall k :: 0 <= k < |fs| ==> Free(fs[k], c)
    ensures Fields(Join(fs, [c]), [c]) == fs
    decreases |fs|
  {
    if |fs| == 1 {
      AbsentIndex(fs[0], c);
    } else {
      var rest := Join(fs[1..], [c]);
      var s := fs[0] + [c] + rest;
      assert Join(fs, [c]) == s;
      DelimAfterField(fs[0], c, rest);
      assert s[..|fs[0]|] == fs[0];
      assert s[|fs[0]| + 1..] == rest;
      FieldsOfJoin(fs[1..], c);
      assert fs == [fs[0]] + fs[1..];
    }
  }

  /** Java's split of such a line gives the fields back when the last field is not empty. */
  lemma SplitOfJoin(fs: seq<string>, c: char)
    requires |fs| >= 1 && forall k :: 0 <= k < |fs| ==> Free(fs[k], c)
    requires fs[|fs| - 1] != ""
    ensures JavaSplit(Join(fs, [c]), [c]) == fs
  {
    FieldsOfJoin(fs, c);
    if |fs| == 1 {
      AbsentIndex(fs[0], c);
    }
  }

  /** Java's array indexing: an index past the end throws. */
  function At(a: seq<string>, i: nat): Result<string> {
    if i < |a| then Ok(a[i]) else Err(ArrayIndexOutOfBounds(i))
  }
}
