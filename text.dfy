// The string conversions the pages rely on: String.prototype.trim, the decimal
// rendering of integers in template literals, and Number.prototype.toFixed(2)
// applied to an amount held as integer cents.
module Text {
  import opened Common

  /** WhiteSpace and LineTerminator code points as ECMAScript's trim strips them. */
  predicate IsWhitespace(c: char)
  {
    var n := c as int;
    n == 0x09 || n == 0x0A || n == 0x0B || n == 0x0C || n == 0x0D || n == 0x20 ||
    n == 0xA0 || n == 0x1680 || (0x2000 <= n <= 0x200A) || n == 0x2028 || n == 0x2029 ||
    n == 0x202F || n == 0x205F || n == 0x3000 || n == 0xFEFF
  }

  /** Every character is whitespace (the empty string included). */
  predicate IsBlank(s: string)
  {
    forall i :: 0 <= i < |s| ==> IsWhitespace(s[i])
  }

  /** s without its leading whitespace: a suffix of s, all that is cut off is whitespace, and what is left does not start with whitespace. */
  function TrimStart(s: string): (r: string)
    ensures |r| <= |s| && r == s[|s| - |r|..]
    ensures IsBlank(s[..|s| - |r|])
    ensures r != [] ==> !IsWhitespace(r[0])
  {
    if s != [] && IsWhitespace(s[0]) then TrimStart(s[1..]) else s
  }

  /** s without its trailing whitespace: a prefix of s, all that is cut off is whitespace, and what is left does not end with whitespace. */
  function TrimEnd(s: string): (r: string)
    ensures |r| <= |s| && r == s[..|r|]
    ensures IsBlank(s[|r|..])
    ensures r != [] ==> !IsWhitespace(r[|r| - 1])
  {
    if s != [] && IsWhitespace(s[|s| - 1]) then TrimEnd(s[..|s| - 1]) else s
  }

  /** r is s[k..k + |r|], and everything before and after it in s is whitespace. */
  predicate BlankAround(s: string, r: string, k: nat)
  {
    k + |r| <= |s| && r == s[k..k + |r|] && IsBlank(s[..k]) && IsBlank(s[k + |r|..])
  }

  /** String.prototype.trim: whitespace cut off both ends. */
  function Trim(s: string): (r: string)
    ensures |r| <= |s|
    ensures r != [] ==> !IsWhitespace(r[0]) && !IsWhitespace(r[|r| - 1])
    ensures exists k: nat :: BlankAround(s, r, k)
  {
    TrimBothEnds(s);
    TrimEnd(TrimStart(s))
  }

  /** Where the trimmed text sits in s: right after the leading whitespace that TrimStart cuts. */
  lemma TrimBothEnds(s: string)
    ensures BlankAround(s, TrimEnd(TrimStart(s)), |s| - |TrimStart(s)|)
  {
    BlankAroundOfCuts(s, TrimStart(s), TrimEnd(TrimStart(s)));
  }

  /** Cutting a blank prefix off s, then a blank suffix off what is left, leaves r with blanks around it. */
  lemma BlankAroundOfCuts(s: string, t: string, r: string)
    requires |t| <= |s| && t == s[|s| - |t|..] && IsBlank(s[..|s| - |t|])
    requires |r| <= |t| && r == t[..|r|] && IsBlank(t[|r|..])
    ensures BlankAround(s, r, |s| - |t|)
  {
    var k := |s| - |t|;
    SliceOfSlice(s, k, |r|);
    SuffixOfSuffix(s, k, |r|);
  }

  /** `!s.trim()` holds exactly for the strings made only of whitespace. */
  lemma TrimEmptyIffBlank(s: string)
    ensures Trim(s) == "" <==> IsBlank(s)
  {
    var t := TrimStart(s);
    if Trim(s) == "" {
      assert IsBlank(t[|t|..]);
      assert IsBlank(s[..|s| - |t|]);
      forall i | 0 <= i < |s| ensures IsWhitespace(s[i]) {
        if i < |s| - |t| {
          assert s[..|s| - |t|][i] == s[i];
        } else {
          assert t[i - (|s| - |t|)] == s[i];
        }
      }
    }
  }

  /** Trimming a string that is not blank leaves a string that is not blank either. */
  lemma TrimmedNotBlank(s: string)
    requires !IsBlank(s)
    ensures |Trim(s)| > 0 && !IsBlank(Trim(s))
  {
    TrimEmptyIffBlank(s);
    assert !IsWhitespace(Trim(s)[0]);
  }

  /** Trimming twice gives what trimming once gives. */
  lemma TrimIdempotent(s: string)
    ensures Trim(Trim(s)) == Trim(s)
  {
    var r := Trim(s);
    if r != [] {
      assert TrimStart(r) == r;
      assert TrimEnd(r) == r;
    }
  }

  // ---------------------------------------------------------------------------
  // Text built piece by piece

  /** The pieces f gives for each element, one element after another. */
  function FlatMap<T, U>(xs: seq<T>, f: T -> seq<U>): seq<U>
  {
    if xs == [] then [] else FlatMap(xs[..|xs| - 1], f) + f(xs[|xs| - 1])
  }

  /** The pieces of a joined sequence are the pieces of its two parts, one after the other. */
  lemma {:induction false} FlatMapAppend<T, U>(a: seq<T>, b: seq<T>, f: T -> seq<U>)
    ensures FlatMap(a + b, f) == FlatMap(a, f) + FlatMap(b, f)
    decreases |b|
  {
    if b == [] {
      assert a + b == a;
    } else {
      var n := |b|;
      assert (a + b)[..|a + b| - 1] == a + b[..n - 1];
      FlatMapAppend(a, b[..n - 1], f);
    }
  }

  /** When every element gives k pieces, there are k pieces per element. */
  lemma {:induction false} FlatMapLength<T, U>(xs: seq<T>, f: T -> seq<U>, k: nat)
    requires forall x :: |f(x)| == k
    ensures |FlatMap(xs, f)| == k * |xs|
  {
    if xs != [] {
      var n := |xs|;
      FlatMapLength(xs[..n - 1], f, k);
      assert k * (n - 1) + k == k * n;
    }
  }

  /** When every element gives k pieces, element i's pieces sit at k * i .. k * i + k. */
  lemma {:induction false} FlatMapBlocks<T, U>(xs: seq<T>, f: T -> seq<U>, k: nat, i: nat)
    requires forall x :: |f(x)| == k
    requires i < |xs|
    ensures k * i + k <= |FlatMap(xs, f)| && FlatMap(xs, f)[k * i..k * i + k] == f(xs[i])
  {
    var n := |xs|;
    var front := FlatMap(xs[..n - 1], f);
    var last := f(xs[n - 1]);
    FlatMapLength(xs[..n - 1], f, k);
    assert FlatMap(xs, f) == front + last;
    var lo := k * i;
    if i < n - 1 {
      FlatMapBlocks(xs[..n - 1], f, k, i);
      assert xs[..n - 1][i] == xs[i];
      SliceOfFront(front, last, lo, lo + k);
    } else {
      assert lo == |front|;
      SliceOfBack(front, last, 0, k);
      assert last[0..k] == last;
    }
  }

  /** The texts f gives for each element, laid end to end. */
  function ConcatWith<T>(xs: seq<T>, f: T -> string): string
  {
    if xs == [] then "" else ConcatWith(xs[..|xs| - 1], f) + f(xs[|xs| - 1])
  }

  /** The text of a joined sequence is the text of its first part followed by that of its second. */
  lemma {:induction false} ConcatWithAppend<T>(a: seq<T>, b: seq<T>, f: T -> string)
    ensures ConcatWith(a + b, f) == ConcatWith(a, f) + ConcatWith(b, f)
    decreases |b|
  {
    if b == [] {
      assert a + b == a;
    } else {
      var n := |b|;
      assert (a + b)[..|a + b| - 1] == a + b[..n - 1];
      ConcatWithAppend(a, b[..n - 1], f);
    }
  }

  /** The text is empty exactly when every element gives the empty text. */
  lemma {:induction false} ConcatWithEmptyIff<T>(xs: seq<T>, f: T -> string)
    ensures ConcatWith(xs, f) == "" <==> forall i :: 0 <= i < |xs| ==> f(xs[i]) == ""
  {
    if xs != [] {
      var n := |xs|;
      ConcatWithEmptyIff(xs[..n - 1], f);
      if ConcatWith(xs, f) == "" {
        forall i | 0 <= i < n ensures f(xs[i]) == "" {
          if i < n - 1 {
            assert xs[..n - 1][i] == xs[i];
          }
        }
      }
    }
  }

  // ---------------------------------------------------------------------------
  // Decimal digits

  predicate IsDigit(c: char) { '0' <= c <= '9' }

  predicate AllDigits(s: string) { forall i :: 0 <= i < |s| ==> IsDigit(s[i]) }

  function DigitChar(d: nat): (c: char)
    requires d < 10
    ensures IsDigit(c) && c as int - '0' as int == d
  {
    ('0' as int + d) as char
  }

  function DigitValue(c: char): (d: nat)
    requires IsDigit(c)
    ensures d < 10
  {
    c as int - '0' as int
  }

  /** The decimal text of a natural number: digits only, no leading zero. */
  function NatToString(n: nat): (s: string)
    ensures |s| >= 1 && AllDigits(s)
    ensures |s| > 1 ==> s[0] != '0'
  {
    if n < 10 then [DigitChar(n)] else NatToString(n / 10) + [DigitChar(n % 10)]
  }

  function ParseNat(s: string): nat
    requires AllDigits(s)
  {
    if s == [] then 0 else ParseNat(s[..|s| - 1]) * 10 + DigitValue(s[|s| - 1])
  }

  /** Reading back the decimal text of n gives n. */
  lemma {:induction false} ParseNatToString(n: nat)
    ensures ParseNat(NatToString(n)) == n
  {
    var s := NatToString(n);
    if n >= 10 {
      ParseNatToString(n / 10);
      assert s[..|s| - 1] == NatToString(n / 10);
    }
  }

  /** A number in a template literal: a minus sign, then the digits of the magnitude. */
  function IntToString(i: int): (s: string)
    ensures |s| >= 1
    ensures i < 0 <==> s[0] == '-'
  {
    if i < 0 then "-" + NatToString(-i) else NatToString(i)
  }

  function ParseInt(s: string): Option<int>
  {
    if |s| > 1 && s[0] == '-' && AllDigits(s[1..]) then Some(0 - ParseNat(s[1..]))
    else if |s| > 0 && AllDigits(s) then Some(ParseNat(s))
    else None
  }

  lemma IntToStringRoundTrip(i: int)
    ensures ParseInt(IntToString(i)) == Some(i)
  {
    if i < 0 {
      ParseNatToString(-i);
      assert IntToString(i)[1..] == NatToString(-i);
    } else {
      ParseNatToString(i);
    }
  }

  // ---------------------------------------------------------------------------
  // Money: toFixed(2) on an amount of cents

  /** The digits of a non-negative amount: whole dollars, a point, two cent digits. */
  function UnsignedCents(c: nat): (s: string)
    ensures |s| >= 4 && s[|s| - 3] == '.'
    ensures AllDigits(s[..|s| - 3]) && IsDigit(s[|s| - 2]) && IsDigit(s[|s| - 1])
  {
    var s := NatToString(c / 100) + "." + [DigitChar(c % 100 / 10), DigitChar(c % 10)];
    assert s[..|s| - 3] == NatToString(c / 100);
    s
  }

  /** `(c / 100).toFixed(2)` for an amount of c cents. */
  function FormatCents(c: int): (s: string)
    ensures |s| >= 4
    ensures c >= 0 ==> IsDigit(s[0])
    ensures c < 0 ==> s[0] == '-'
  {
    if c < 0 then "-" + UnsignedCents(-c) else UnsignedCents(c)
  }

  function ParseUnsignedCents(s: string): Option<nat>
  {
    if |s| >= 4 && s[|s| - 3] == '.' && AllDigits(s[..|s| - 3]) && IsDigit(s[|s| - 2]) && IsDigit(s[|s| - 1])
    then Some(ParseNat(s[..|s| - 3]) * 100 + DigitValue(s[|s| - 2]) * 10 + DigitValue(s[|s| - 1]))
    else None
  }

  function ParseCents(s: string): Option<int>
  {
    if |s| > 0 && s[0] == '-' then
      match ParseUnsignedCents(s[1..])
      case Some(v) => Some(0 - v)
      case None => None
    else
      match ParseUnsignedCents(s)
      case Some(v) => Some(v)
      case None => None
  }

  lemma UnsignedCentsRoundTrip(c: nat)
    ensures ParseUnsignedCents(UnsignedCents(c)) == Some(c)
  {
    var s := UnsignedCents(c);
    assert s[..|s| - 3] == NatToString(c / 100);
    ParseNatToString(c / 100);
    assert DigitValue(s[|s| - 2]) == c % 100 / 10;
    assert DigitValue(s[|s| - 1]) == c % 10;
    assert c % 100 / 10 * 10 + c % 10 == c % 100;
  }

  /** The money text is unambiguous: it reads back as the same number of cents. */
  lemma FormatCentsRoundTrip(c: int)
    ensures ParseCents(FormatCents(c)) == Some(c)
  {
    if c < 0 {
      UnsignedCentsRoundTrip(-c);
      assert FormatCents(c)[1..] == UnsignedCents(-c);
    } else {
      UnsignedCentsRoundTrip(c);
    }
  }
}
