/**
 * Digit strings: the base-16 strings that ethers' BigNumber parses, the decimal strings
 * that JavaScript's `String(n)` produces for integral numbers, and the lexicographic order on
 * strings (by Unicode scalar value) that stands for the order `Array.prototype.sort()` uses
 * when it is given no comparator.
 */
module Numerals {
  import opened Wrappers

  predicate IsDecimalDigit(c: char) {
    '0' <= c <= '9'
  }

  predicate IsHexDigit(c: char) {
    IsDecimalDigit(c) || 'a' <= c <= 'f' || 'A' <= c <= 'F'
  }

  predicate AllHexDigits(s: string) {
    forall i :: 0 <= i < |s| ==> IsHexDigit(s[i])
  }

  /** The value of one hexadecimal digit; upper and lower case are the same digit. */
  function HexDigitValue(c: char): (d: nat)
    requires IsHexDigit(c)
    ensures d < 16
  {
    if IsDecimalDigit(c) then c as int - '0' as int
    else if 'a' <= c <= 'f' then c as int - 'a' as int + 10
    else c as int - 'A' as int + 10
  }

  /** The lower-case digit character for `d`. */
  function DigitChar(d: nat): (c: char)
    requires d < 16
    ensures IsHexDigit(c) && HexDigitValue(c) == d
    ensures IsDecimalDigit(c) <==> d < 10
  {
    if d < 10 then ('0' as int + d) as char else ('a' as int + d - 10) as char
  }

  function Pow16(k: nat): (p: nat)
    ensures p >= 1
  {
    if k == 0 then 1 else 16 * Pow16(k - 1)
  }

  /** The number a string of hexadecimal digits denotes, most significant digit first. */
  function HexDigitsValue(s: string): (v: nat)
    requires AllHexDigits(s)
    ensures v < Pow16(|s|)
  {
    if s == [] then 0 else HexDigitsValue(s[..|s| - 1]) * 16 + HexDigitValue(s[|s| - 1])
  }

  /** The shortest lower-case hexadecimal digit string of `n`. */
  function HexDigits(n: nat): (s: string)
    ensures |s| >= 1 && AllHexDigits(s)
    ensures HexDigitsValue(s) == n
  {
    if n < 16 then
      [DigitChar(n)]
    else
      var p := HexDigits(n / 16);
      var s := p + [DigitChar(n % 16)];
      assert s[..|s| - 1] == p;
      s
  }

  /** A string BigNumber accepts as hexadecimal: `0x` or `0X` followed by at least one digit. */
  predicate IsHexString(s: string) {
    |s| >= 3 && s[0] == '0' && (s[1] == 'x' || s[1] == 'X') && AllHexDigits(s[2..])
  }

  /** The number a `0x` string denotes, or None for any other string. */
  function HexDecode(s: string): (r: Option<nat>)
    ensures r.Some? <==> IsHexString(s)
    ensures r.Some? ==> r.value < Pow16(|s| - 2)
  {
    if IsHexString(s) then Some(HexDigitsValue(s[2..])) else None
  }

  /** A leading zero digit does not change the value of a hexadecimal digit string. */
  lemma {:induction false} LeadingZero(s: string)
    requires AllHexDigits(s)
    ensures AllHexDigits("0" + s) && HexDigitsValue("0" + s) == HexDigitsValue(s)
    decreases |s|
  {
    assert AllHexDigits("0" + s) by {
      assert forall i :: 1 <= i < |"0" + s| ==> ("0" + s)[i] == s[i - 1];
    }
    if s != [] {
      var p := s[..|s| - 1];
      assert ("0" + s)[..|"0" + s| - 1] == "0" + p;
      assert ("0" + s)[|"0" + s| - 1] == s[|s| - 1];
      LeadingZero(p);
    }
  }

  /**
   * The `0x` form of `n` as ethers writes a BigNumber's `hex` field: lower-case digits,
   * padded with one leading zero to an even number of digits (`0x00`, `0x01`, `0x015180`).
   */
  function ToHexString(n: nat): (s: string)
    ensures IsHexString(s) && (|s| - 2) % 2 == 0
    ensures |s| - 2 <= |HexDigits(n)| + 1
  {
    var d := HexDigits(n);
    if |d| % 2 == 1 then "0x" + ("0" + d) else "0x" + d
  }

  /** Zero and one are written `0x00` and `0x01`. */
  lemma ToHexStringExamples()
    ensures ToHexString(0) == "0x00" && ToHexString(1) == "0x01"
  {
  }

  /** Decoding inverts the encoder: the `0x` form of any natural number denotes that number. */
  lemma HexRoundTrip(n: nat)
    ensures HexDecode(ToHexString(n)) == Some(n)
  {
    var d := HexDigits(n);
    var s := ToHexString(n);
    if |d| % 2 == 1 {
      assert s[2..] == "0" + d;
      LeadingZero(d);
    } else {
      assert s[2..] == d;
    }
  }

  /** The decimal digits of `n`, without leading zeros. */
  function DecimalDigits(n: nat): (s: string)
    ensures |s| >= 1 && forall i :: 0 <= i < |s| ==> IsDecimalDigit(s[i])
    ensures |s| == 1 <==> n < 10
  {
    if n < 10 then [DigitChar(n)] else DecimalDigits(n / 10) + [DigitChar(n % 10)]
  }

  /** `String(n)` for an integral JavaScript number. */
  function Decimal(n: int): (s: string)
    ensures |s| >= 1
    ensures n >= 0 ==> s == DecimalDigits(n)
  {
    if n < 0 then "-" + DecimalDigits(-n) else DecimalDigits(n)
  }

  /**
   * Strict lexicographic order on strings, character by character. On the digit strings this
   * model compares it is the order JavaScript's `<` gives them.
   */
  predicate LexLess(a: string, b: string)
    decreases |a|
  {
    b != [] && (a == [] || a[0] < b[0] || (a[0] == b[0] && LexLess(a[1..], b[1..])))
  }

  predicate LexLe(a: string, b: string) {
    a == b || LexLess(a, b)
  }

  lemma {:induction false} LexLessIrreflexive(a: string)
    ensures !LexLess(a, a)
    decreases |a|
  {
    if a != [] {
      LexLessIrreflexive(a[1..]);
    }
  }

  lemma {:induction false} LexLessTransitive(a: string, b: string, c: string)
    requires LexLess(a, b) && LexLess(b, c)
    ensures LexLess(a, c)
    decreases |a|
  {
    if a != [] && a[0] == b[0] && b[0] == c[0] {
      LexLessTransitive(a[1..], b[1..], c[1..]);
    }
  }

  lemma {:induction false} LexLessTotal(a: string, b: string)
    ensures a == b || LexLess(a, b) || LexLess(b, a)
    decreases |a|
  {
    if a != [] && b != [] && a[0] == b[0] {
      LexLessTotal(a[1..], b[1..]);
      if a[1..] == b[1..] {
        assert a == [a[0]] + a[1..] && b == [b[0]] + b[1..];
      }
    }
  }

  lemma LexLessAsymmetric(a: string, b: string)
    requires LexLess(a, b)
    ensures !LexLe(b, a)
  {
    LexLessIrreflexive(a);
    if LexLess(b, a) {
      LexLessTransitive(a, b, a);
    }
  }

  lemma LexLeTransitive(a: string, b: string, c: string)
    requires LexLe(a, b) && LexLe(b, c)
    ensures LexLe(a, c)
  {
    if LexLess(a, b) && LexLess(b, c) {
      LexLessTransitive(a, b, c);
    }
  }

  /** Two strings of equal length keep their order when a character is appended to each. */
  lemma {:induction false} LexLessAppend(u: string, v: string, x: char, y: char)
    requires |u| == |v| && LexLess(u, v)
    ensures LexLess(u + [x], v + [y])
    decreases |u|
  {
    assert (u + [x])[1..] == u[1..] + [x];
    assert (v + [y])[1..] == v[1..] + [y];
    if u[0] == v[0] {
      LexLessAppend(u[1..], v[1..], x, y);
    }
  }

  /** A common prefix leaves the order to the characters after it. */
  lemma {:induction false} LexLessLastChar(p: string, x: char, y: char)
    requires x < y
    ensures LexLess(p + [x], p + [y])
    decreases |p|
  {
    if p != [] {
      assert (p + [x])[1..] == p[1..] + [x];
      assert (p + [y])[1..] == p[1..] + [y];
      LexLessLastChar(p[1..], x, y);
    }
  }

  /** Distinct natural numbers have distinct decimal strings. */
  lemma DecimalDigitsInjective(a: nat, b: nat)
    requires a != b
    ensures DecimalDigits(a) != DecimalDigits(b)
  {
    if |DecimalDigits(a)| == |DecimalDigits(b)| {
      if a < b {
        DecimalDigitsMonotone(a, b);
        LexLessIrreflexive(DecimalDigits(a));
      } else {
        DecimalDigitsMonotone(b, a);
        LexLessIrreflexive(DecimalDigits(b));
      }
    }
  }

  /** For numbers with the same count of digits, string order is numeric order. */
  lemma {:induction false} DecimalDigitsMonotone(a: nat, b: nat)
    requires |DecimalDigits(a)| == |DecimalDigits(b)| && a < b
    ensures LexLess(DecimalDigits(a), DecimalDigits(b))
    decreases a
  {
    if b >= 10 {
      var pa, pb := DecimalDigits(a / 10), DecimalDigits(b / 10);
      assert DecimalDigits(a) == pa + [DigitChar(a % 10)];
      assert DecimalDigits(b) == pb + [DigitChar(b % 10)];
      if a / 10 < b / 10 {
        DecimalDigitsMonotone(a / 10, b / 10);
        LexLessAppend(pa, pb, DigitChar(a % 10), DigitChar(b % 10));
      } else {
        LexLessLastChar(pa, DigitChar(a % 10), DigitChar(b % 10));
      }
    }
  }

  /**
   * `xs.sort()[0]` for an array of integral numbers: the default sort compares the
   * elements' decimal strings, and the element sorted first is returned.
   */
  function SortFirst(xs: seq<int>): (r: int)
    requires xs != []
    ensures r in xs
    decreases |xs|
  {
    if |xs| == 1 then xs[0]
    else
      var m := SortFirst(xs[1..]);
      if LexLe(Decimal(xs[0]), Decimal(m)) then xs[0] else m
  }

  /** The element sorted first has the least decimal string. */
  lemma {:induction false} SortFirstIsLeast(xs: seq<int>)
    requires xs != []
    ensures forall y :: y in xs ==> LexLe(Decimal(SortFirst(xs)), Decimal(y))
    decreases |xs|
  {
    if |xs| > 1 {
      var m := SortFirst(xs[1..]);
      SortFirstIsLeast(xs[1..]);
      var r := SortFirst(xs);
      forall y | y in xs
        ensures LexLe(Decimal(r), Decimal(y))
      {
        if LexLe(Decimal(xs[0]), Decimal(m)) {
          if y != xs[0] {
            assert y in xs[1..];
            LexLeTransitive(Decimal(xs[0]), Decimal(m), Decimal(y));
          }
        } else if y == xs[0] {
          LexLessTotal(Decimal(xs[0]), Decimal(m));
        } else {
          assert y in xs[1..];
        }
      }
    }
  }

  /**
   * When every element is non-negative and has as many decimal digits as every other
   * (true of Unix timestamps between 2001 and 2286), the string sort picks the numeric minimum.
   */
  lemma SortFirstIsMinimum(xs: seq<int>)
    requires xs != []
    requires forall i :: 0 <= i < |xs| ==> xs[i] >= 0 && |Decimal(xs[i])| == |Decimal(xs[0])|
    ensures forall y :: y in xs ==> SortFirst(xs) <= y
  {
    var r := SortFirst(xs);
    SortFirstIsLeast(xs);
    forall y | y in xs
      ensures r <= y
    {
      if y < r {
        DecimalDigitsMonotone(y, r);
        LexLessAsymmetric(Decimal(y), Decimal(r));
      }
    }
  }

  /** Without equal digit counts the choice differs from the minimum: "10" sorts before "9". */
  lemma SortFirstNotMinimum()
    ensures SortFirst([9, 10]) == 10
  {
    assert Decimal(9) == "9";
    assert DecimalDigits(10) == DecimalDigits(1) + [DigitChar(0)];
    assert Decimal(10) == "10";
    assert !LexLe("9", "10");
    assert SortFirst([9, 10][1..]) == 10;
  }

  /** Negative numbers of one digit each: "-3" sorts before "-5", so `[-5, -3]` yields -3. */
  lemma SortFirstNegativeNotMinimum()
    ensures SortFirst([-5, -3]) == -3
  {
    assert Decimal(-5) == "-5";
    assert Decimal(-3) == "-3";
    assert !LexLe("-5", "-3");
    assert SortFirst([-5, -3][1..]) == -3;
  }
}
