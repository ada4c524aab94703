/**
  The pieces of JavaScript's built-in behaviour that the application code relies on:
  numbers with NaN and the infinities, the string-to-number conversions (`parseInt`,
  implicit `Number(...)`), `replace(/[^0-9]/g, '')`, `trim`, `split('.').pop()`,
  `[...new Set(xs)]` and `Math.min`/`Math.max` over a spread list.
  Numbers are modelled on integers: the application only reads whole amounts.
 */
module JsBuiltins {
  import opened Wrappers

  // ---------------------------------------------------------------- numbers

  /** A JavaScript number restricted to integral values, plus NaN and the two infinities. */
  datatype Number = Finite(v: int) | NaN | PosInfinity | NegInfinity

  /** `a <= b`: false as soon as NaN is involved. */
  predicate LessEq(a: Number, b: Number) {
    && !a.NaN? && !b.NaN?
    && (a.NegInfinity? || b.PosInfinity? || (a.Finite? && b.Finite? && a.v <= b.v))
  }

  /** `a < b`: false as soon as NaN is involved. */
  predicate Less(a: Number, b: Number) {
    LessEq(a, b) && a != b
  }

  /**
    The least integer whose nearest double is +Infinity: 2^1024 - 2^970, half-way between the
    largest finite double and 2^1024, which ECMA-262 section 6.1.6.1 treats as the even
    neighbour when rounding.
   */
  const DoubleOverflow: int := 0xfffffffffffffc00000000000000000000000000000000000000000000000000000000000000000000000000000000000000000000000000000000000000000000000000000000000000000000000000000000000000000000000000000000000000000000000000000000000000000000000000000000000000000000000000

  /**
    The Number value of an integer as far as its magnitude goes: an infinity from
    `DoubleOverflow` on, else the integer itself (rounding to 53 significant bits is not modelled).
   */
  function NumberOfInt(v: int): (r: Number)
    ensures !r.NaN?
    ensures r.Finite? <==> -DoubleOverflow < v < DoubleOverflow
    ensures r.PosInfinity? <==> v >= DoubleOverflow
    ensures r.Finite? ==> r.v == v
  {
    if v >= DoubleOverflow then PosInfinity
    else if v <= -DoubleOverflow then NegInfinity
    else Finite(v)
  }

  // ------------------------------------------------------------- characters

  predicate IsDigit(c: char) {
    '0' <= c <= '9'
  }

  predicate AllDigits(s: string) {
    forall i :: 0 <= i < |s| ==> IsDigit(s[i])
  }

  /** `/^\d{5}$/.test(s)`: a five-digit ZIP code. */
  predicate IsZip(s: string) {
    |s| == 5 && AllDigits(s)
  }

  /** White space as `String.prototype.trim` and `Number(...)` skip it (ECMAScript WhiteSpace and LineTerminator). */
  predicate IsSpace(c: char) {
    c == ' ' || '\t' <= c <= '\r' || ('\U{00A0}' <= c && IsWideSpace(c))
  }

  /** The white-space characters above U+00A0. */
  predicate IsWideSpace(c: char) {
    || c == '\U{00A0}' || c == '\U{1680}' || '\U{2000}' <= c <= '\U{200A}'
    || c == '\U{2028}' || c == '\U{2029}' || c == '\U{202F}' || c == '\U{205F}'
    || c == '\U{3000}' || c == '\U{FEFF}'
  }

  function DigitValue(c: char): (d: nat)
    requires IsDigit(c)
    ensures d < 10
  {
    (c as int) - ('0' as int)
  }

  function DigitChar(d: nat): (c: char)
    requires d < 10
    ensures IsDigit(c) && DigitValue(c) == d
    ensures c == '0' <==> d == 0
  {
    (('0' as int) + d) as char
  }

  // ------------------------------------------------------------ digit runs

  /** `s.replace(/[^0-9]/g, '')`: the decimal digits of `s`, in their order. */
  function KeepDigits(s: string): (r: string)
    ensures AllDigits(r)
    ensures |r| <= |s|
  {
    if s == [] then []
    else (if IsDigit(s[0]) then [s[0]] else []) + KeepDigits(s[1..])
  }

  /** Stripping changes a string exactly when it holds a non-digit. */
  lemma {:induction false} KeepDigitsIdentity(s: string)
    ensures KeepDigits(s) == s <==> AllDigits(s)
  {
    if s != [] {
      KeepDigitsIdentity(s[1..]);
    }
  }

  /** Every digit of `s` survives, as often as it occurs, and nothing else does. */
  lemma {:induction false} KeepDigitsCounts(s: string, c: char)
    ensures multiset(KeepDigits(s))[c] == if IsDigit(c) then multiset(s)[c] else 0
  {
    if s != [] {
      KeepDigitsCounts(s[1..], c);
      assert s == [s[0]] + s[1..];
    }
  }

  /** Stripping distributes over concatenation. */
  lemma {:induction false} KeepDigitsAppend(a: string, b: string)
    ensures KeepDigits(a + b) == KeepDigits(a) + KeepDigits(b)
  {
    if a != [] {
      assert (a + b)[0] == a[0] && (a + b)[1..] == a[1..] + b;
      KeepDigitsAppend(a[1..], b);
      var head := if IsDigit(a[0]) then [a[0]] else [];
      assert KeepDigits(a) == head + KeepDigits(a[1..]);
      assert KeepDigits(a + b) == head + (KeepDigits(a[1..]) + KeepDigits(b));
      assert head + (KeepDigits(a[1..]) + KeepDigits(b)) == (head + KeepDigits(a[1..])) + KeepDigits(b);
    } else {
      assert a + b == b;
    }
  }

  /** The value of a run of decimal digits. */
  function DigitsValue(s: string): nat
    requires AllDigits(s)
  {
    if s == [] then 0 else DigitsValue(s[..|s| - 1]) * 10 + DigitValue(s[|s| - 1])
  }

  /** A decimal rendering with no leading zero, as `String(n)` writes a non-negative integer. */
  predicate Canonical(s: string) {
    AllDigits(s) && |s| >= 1 && (|s| > 1 ==> s[0] != '0')
  }

  /** `String(n)` for a non-negative integer. */
  function NatToString(n: nat): (s: string)
    ensures Canonical(s)
    ensures s[0] == '0' <==> n == 0
    ensures n < 10 <==> |s| == 1
  {
    if n < 10 then [DigitChar(n)] else NatToString(n / 10) + [DigitChar(n % 10)]
  }

  /** Reading back a rendered integer gives the integer. */
  lemma {:induction false} NatToStringRoundTrip(n: nat)
    ensures DigitsValue(NatToString(n)) == n
  {
    if n >= 10 {
      NatToStringRoundTrip(n / 10);
      var s := NatToString(n);
      assert s[..|s| - 1] == NatToString(n / 10);
    }
  }

  lemma {:induction false} LeadingNonZeroIsPositive(s: string)
    requires AllDigits(s) && |s| >= 1 && s[0] != '0'
    ensures DigitsValue(s) >= 1
  {
    if |s| > 1 {
      LeadingNonZeroIsPositive(s[..|s| - 1]);
    }
  }

  /** Rendering the value of a canonical digit run gives the run back. */
  lemma {:induction false} CanonicalRoundTrip(s: string)
    requires Canonical(s)
    ensures NatToString(DigitsValue(s)) == s
  {
    if |s| == 1 {
      assert [DigitChar(DigitValue(s[0]))] == s;
    } else {
      var p := s[..|s| - 1];
      LeadingNonZeroIsPositive(p);
      CanonicalRoundTrip(p);
      var v := DigitsValue(s);
      assert v / 10 == DigitsValue(p) && v % 10 == DigitValue(s[|s| - 1]);
      assert s == p + [s[|s| - 1]];
    }
  }

  /** Leading zeros do not change the value of a digit run. */
  lemma {:induction false} LeadingZeroValue(s: string)
    requires AllDigits(s)
    ensures DigitsValue(['0'] + s) == DigitsValue(s)
  {
    if s != [] {
      var p := s[..|s| - 1];
      assert (['0'] + s)[..|s|] == ['0'] + p;
      LeadingZeroValue(p);
    }
  }

  // ---------------------------------------------------------------- trimming

  /** `s` without its leading white space. */
  function TrimStart(s: string): (r: string)
    ensures |r| <= |s| && r == s[|s| - |r|..]
    ensures r == [] || !IsSpace(r[0])
    ensures forall i :: 0 <= i < |s| - |r| ==> IsSpace(s[i])
  {
    if s != [] && IsSpace(s[0]) then TrimStart(s[1..]) else s
  }

  /** `s` without its trailing white space. */
  function TrimEnd(s: string): (r: string)
    ensures |r| <= |s| && r == s[..|r|]
    ensures r == [] || !IsSpace(r[|r| - 1])
    ensures forall i :: |r| <= i < |s| ==> IsSpace(s[i])
  {
    if s != [] && IsSpace(s[|s| - 1]) then TrimEnd(s[..|s| - 1]) else s
  }

  /** `s.trim()`. */
  function Trim(s: string): string {
    TrimEnd(TrimStart(s))
  }

  /** `s.trim() !== ''` holds exactly when some character is not white space. */
  lemma TrimEmptyIffAllSpace(s: string)
    ensures Trim(s) == [] <==> forall i :: 0 <= i < |s| ==> IsSpace(s[i])
  {
    var t := TrimStart(s);
    if Trim(s) == [] {
      assert t == [];
    }
  }

  // ------------------------------------------------------ string to number

  /** The longest prefix of `s` made of decimal digits. */
  function DigitPrefix(s: string): (r: string)
    ensures AllDigits(r) && |r| <= |s| && r == s[..|r|]
    ensures |r| == |s| || !IsDigit(s[|r|])
  {
    if s != [] && IsDigit(s[0]) then [s[0]] + DigitPrefix(s[1..]) else []
  }

  /** The text after an optional leading sign. */
  function Unsigned(t: string): (r: string)
    ensures r == t || (t != [] && r == t[1..] && (t[0] == '+' || t[0] == '-'))
  {
    if t != [] && (t[0] == '+' || t[0] == '-') then t[1..] else t
  }

  /**
    `parseInt(s)` with no radix: leading white space is skipped, an optional sign is read,
    then the longest run of decimal digits; NaN when that run is empty, an infinity when
    its value is past the range of doubles.
   */
  function ParseInt(s: string): (r: Number)
    ensures r.NaN? <==> DigitPrefix(Unsigned(TrimStart(s))) == []
    ensures r.Finite? ==> -DoubleOverflow < r.v < DoubleOverflow
  {
    var t := TrimStart(s);
    var digits := DigitPrefix(Unsigned(t));
    if digits == [] then NaN
    else if t[0] == '-' then NumberOfInt(-(DigitsValue(digits) as int))
    else NumberOfInt(DigitsValue(digits))
  }

  /** On a non-empty run of digits `parseInt` reads its value, up to overflow; on an empty string it gives NaN. */
  lemma ParseIntOfDigits(s: string)
    requires AllDigits(s)
    ensures ParseInt(s) == if s == [] then NaN else NumberOfInt(DigitsValue(s))
  {
    if s != [] {
      assert IsDigit(s[0]) && !IsSpace(s[0]);
      assert TrimStart(s) == s;
      assert Unsigned(s) == s;
      DigitPrefixOfDigits(s);
    }
  }

  lemma {:induction false} DigitPrefixOfDigits(s: string)
    requires AllDigits(s)
    ensures DigitPrefix(s) == s
  {
    if s != [] {
      DigitPrefixOfDigits(s[1..]);
    }
  }

  /**
    The implicit conversion `Number(s)` that a comparison such as `value > 0` applies to a string:
    the trimmed text must be empty (0), an optionally signed run of decimal digits, or
    an optionally signed `Infinity`; anything else is NaN.
   */
  function ToNumber(s: string): (r: Number)
    ensures Trim(s) == [] ==> r == Finite(0)
  {
    var t := Trim(s);
    if t == [] then Finite(0)
    else
      var negative := t[0] == '-';
      var body := if t[0] == '+' || t[0] == '-' then t[1..] else t;
      if body == "Infinity" then (if negative then NegInfinity else PosInfinity)
      else if body != [] && AllDigits(body) then NumberOfInt(if negative then -(DigitsValue(body) as int) else DigitsValue(body))
      else NaN
  }

  /** A run of digits converts to its value. */
  lemma ToNumberOfDigits(s: string)
    requires AllDigits(s) && s != []
    ensures ToNumber(s) == NumberOfInt(DigitsValue(s))
  {
    assert TrimStart(s) == s;
    assert TrimEnd(s) == s;
  }

  // ----------------------------------------------------------------- strings

  /** `s.includes(sub)`. */
  predicate Contains(s: string, sub: string) {
    exists i | 0 <= i <= |s| - |sub| :: OccursAt(s, sub, i)
  }

  predicate OccursAt(s: string, sub: string, i: nat)
    requires i + |sub| <= |s|
  {
    s[i..i + |sub|] == sub
  }

  /** `s.split('.').pop()`: the text after the last `.`, or all of `s` when it has none. */
  function LastSegment(s: string): (r: string)
    ensures forall i :: 0 <= i < |r| ==> r[i] != '.'
    ensures |r| <= |s| && r == s[|s| - |r|..]
    ensures |r| < |s| ==> s[|s| - |r| - 1] == '.'
  {
    if s == [] || s[|s| - 1] == '.' then [] else LastSegment(s[..|s| - 1]) + [s[|s| - 1]]
  }

  /** The last segment of `prefix + "." + field` is `field` whenever `field` has no dot. */
  lemma LastSegmentOfPath(prefix: string, field: string)
    requires forall i :: 0 <= i < |field| ==> field[i] != '.'
    ensures LastSegment(prefix + "." + field) == field
  {
    var s := prefix + "." + field;
    var r := LastSegment(s);
    assert s[|s| - |field| - 1] == '.';
    assert s[|s| - |field|..] == field;
    assert |r| == |field|;
  }

  // ---------------------------------------------------------- collections

  predicate NoDuplicates<T(==)>(s: seq<T>) {
    forall i, j :: 0 <= i < j < |s| ==> s[i] != s[j]
  }

  /** `[...new Set(s)]`: the distinct elements of `s`, each kept where it first occurs. */
  function Distinct<T(==)>(s: seq<T>): (r: seq<T>)
    ensures forall i :: 0 <= i < |r| ==> r[i] in s
    ensures forall i :: 0 <= i < |s| ==> s[i] in r
    ensures NoDuplicates(r)
  {
    if s == [] then []
    else
      var p := Distinct(s[..|s| - 1]);
      if s[|s| - 1] in p then p else p + [s[|s| - 1]]
  }

  /** `s.indexOf(x)` for an element that occurs. */
  function FirstIndex<T(==)>(s: seq<T>, x: T): (k: nat)
    requires x in s
    ensures k < |s| && s[k] == x && x !in s[..k]
  {
    if s[0] == x then 0
    else
      var k := 1 + FirstIndex(s[1..], x);
      assert s[..k] == [s[0]] + s[1..][..k - 1];
      k
  }

  lemma FirstIndexUnique<T>(s: seq<T>, x: T, k: nat)
    requires k < |s| && s[k] == x && x !in s[..k]
    ensures FirstIndex(s, x) == k
  {
  }

  /** Distinct elements come out in the order of their first occurrences in `s`. */
  lemma {:induction false} DistinctFirstOccurrenceOrder<T>(s: seq<T>)
    ensures forall i, j :: 0 <= i < j < |Distinct(s)| ==>
              FirstIndex(s, Distinct(s)[i]) < FirstIndex(s, Distinct(s)[j])
  {
    if s != [] {
      var p := s[..|s| - 1];
      var y := s[|s| - 1];
      assert s == p + [y];
      DistinctFirstOccurrenceOrder(p);
      var dp := Distinct(p);
      forall x | x in p ensures FirstIndex(s, x) == FirstIndex(p, x) {
        var k := FirstIndex(p, x);
        assert s[..k] == p[..k];
        FirstIndexUnique(s, x, k);
      }
      var d := Distinct(s);
      if y !in dp {
        assert y !in s[..|p|];
        FirstIndexUnique(s, y, |p|);
        assert d == dp + [y];
      } else {
        assert d == dp;
      }
      forall i, j | 0 <= i < j < |d| ensures FirstIndex(s, d[i]) < FirstIndex(s, d[j]) {
        assert d[i] == dp[i] && dp[i] in p;
        if j < |dp| {
          assert d[j] == dp[j] && dp[j] in p;
        } else {
          assert d[j] == y;
        }
      }
    }
  }

  /** The least element of a non-empty list. */
  function Minimum(s: seq<int>): (m: int)
    requires |s| > 0
    ensures m in s && forall x :: x in s ==> m <= x
  {
    if |s| == 1 then s[0]
    else
      var t := Minimum(s[1..]);
      assert forall x :: x in s ==> x == s[0] || x in s[1..];
      if s[0] <= t then s[0] else t
  }

  /** The greatest element of a non-empty list. */
  function Maximum(s: seq<int>): (m: int)
    requires |s| > 0
    ensures m in s && forall x :: x in s ==> x <= m
  {
    if |s| == 1 then s[0]
    else
      var t := Maximum(s[1..]);
      assert forall x :: x in s ==> x == s[0] || x in s[1..];
      if s[0] >= t then s[0] else t
  }

  /** `Math.min(...s)`: +Infinity for an empty list. */
  function MathMin(s: seq<int>): (r: Number)
    ensures s == [] ==> r == PosInfinity
    ensures s != [] ==> r.Finite? && r.v in s && forall x :: x in s ==> r.v <= x
  {
    if s == [] then PosInfinity else Finite(Minimum(s))
  }

  /** `Math.max(...s)`: -Infinity for an empty list. */
  function MathMax(s: seq<int>): (r: Number)
    ensures s == [] ==> r == NegInfinity
    ensures s != [] ==> r.Finite? && r.v in s && forall x :: x in s ==> x <= r.v
  {
    if s == [] then NegInfinity else Finite(Maximum(s))
  }
}
