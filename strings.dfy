/**
 * The Python string builtins the invoicing views rely on, restated over
 * `seq<char>`: `isdigit` (ASCII digits only), `int()` of a digit string,
 * `str()` of an integer, `zfill`, `strip`, `upper` (ASCII letters only),
 * `replace` of one character, and the `re.sub(r'[^0-9]', '', s)` filter.
 */
module Strings {

  datatype Option<+T> = None | Some(value: T)

  // ---------------------------------------------------------------------
  // Digits and decimal numerals
  // ---------------------------------------------------------------------

  predicate IsDigit(c: char) {
    '0' <= c <= '9'
  }

  predicate IsDigits(s: string) {
    forall i :: 0 <= i < |s| ==> IsDigit(s[i])
  }

  function DigitValue(c: char): (d: nat)
    requires IsDigit(c)
    ensures d < 10
  {
    c as int - '0' as int
  }

  function DigitChar(d: nat): (c: char)
    requires d < 10
    ensures IsDigit(c) && DigitValue(c) == d
  {
    ('0' as int + d) as char
  }

  function Pow10(k: nat): (p: nat)
    ensures p >= 1
  {
    if k == 0 then 1 else 10 * Pow10(k - 1)
  }

  /** `int(s)` for a string of ASCII digits: the value of the numeral, read left to right. */
  function DigitsValue(s: string): nat
    requires IsDigits(s)
  {
    if s == [] then 0 else DigitsValue(s[..|s| - 1]) * 10 + DigitValue(s[|s| - 1])
  }

  /** `str(n)` for a non-negative `n`: a non-empty digit string that reads back as `n`. */
  function Decimal(n: nat): (s: string)
    ensures 1 <= |s| && IsDigits(s)
    ensures DigitsValue(s) == n
    ensures |s| > 1 ==> s[0] != '0'
  {
    if n < 10 then [DigitChar(n)]
    else
      var s := Decimal(n / 10) + [DigitChar(n % 10)];
      assert s[..|s| - 1] == Decimal(n / 10);
      s
  }

  /** `str(i)` for any integer: a minus sign before the numeral of a negative value. */
  function IntDecimal(i: int): (s: string)
    ensures 1 <= |s|
    ensures s[0] == '-' <==> i < 0
    ensures s[0] == '-' || IsDigit(s[0])
    ensures forall k :: 0 < k < |s| ==> IsDigit(s[k])
  {
    if i < 0 then "-" + Decimal(-i) else Decimal(i)
  }

  lemma DecimalInjective(m: nat, n: nat)
    ensures Decimal(m) == Decimal(n) <==> m == n
  {
  }

  /** Reading a numeral built by concatenation: the left part is shifted by the right part's width. */
  lemma {:induction false} DigitsValueConcat(a: string, b: string)
    requires IsDigits(a) && IsDigits(b)
    ensures IsDigits(a + b)
    ensures DigitsValue(a + b) == DigitsValue(a) * Pow10(|b|) + DigitsValue(b)
  {
    if b == [] {
      assert a + b == a;
    } else {
      var b' := b[..|b| - 1];
      var d := DigitValue(b[|b| - 1]);
      assert (a + b)[..|a + b| - 1] == a + b';
      assert (a + b)[|a + b| - 1] == b[|b| - 1];
      DigitsValueConcat(a, b');
      var x, p, y := DigitsValue(a), Pow10(|b'|), DigitsValue(b');
      assert DigitsValue(a + b) == DigitsValue(a + b') * 10 + d;
      assert DigitsValue(b) == y * 10 + d;
      assert Pow10(|b|) == 10 * p;
      ShiftDigit(x, p, y, d);
    }
  }

  lemma ShiftDigit(x: int, p: int, y: int, d: int)
    ensures (x * p + y) * 10 + d == x * (10 * p) + (y * 10 + d)
  {
  }

  /** A numeral of `k` digits is below `10^k`. */
  lemma {:induction false} DigitsValueBound(s: string)
    requires IsDigits(s)
    ensures DigitsValue(s) < Pow10(|s|)
  {
    if s != [] {
      DigitsValueBound(s[..|s| - 1]);
    }
  }

  /** A numeral of `k` digits with a non-zero leading digit is at least `10^(k-1)`. */
  lemma {:induction false} DigitsValueLowerBound(s: string)
    requires IsDigits(s) && |s| >= 1 && s[0] != '0'
    ensures DigitsValue(s) >= Pow10(|s| - 1)
  {
    if |s| > 1 {
      var t := s[..|s| - 1];
      assert t[0] == s[0];
      DigitsValueLowerBound(t);
    }
  }

  /** `str(n)` has at most `k` characters exactly when `n < 10^k`. */
  lemma DecimalLength(n: nat, k: nat)
    requires k >= 1
    ensures |Decimal(n)| <= k <==> n < Pow10(k)
  {
    var s := Decimal(n);
    DigitsValueBound(s);
    if |s| > 1 {
      DigitsValueLowerBound(s);
    }
    if |s| <= k {
      Pow10Monotone(|s|, k);
    } else {
      Pow10Monotone(k, |s| - 1);
    }
  }

  lemma {:induction false} Pow10Monotone(i: nat, j: nat)
    requires i <= j
    ensures Pow10(i) <= Pow10(j)
  {
    if i < j {
      Pow10Monotone(i, j - 1);
    }
  }

  function Repeat(c: char, k: nat): (s: string)
    ensures |s| == k && forall i :: 0 <= i < k ==> s[i] == c
  {
    if k == 0 then [] else Repeat(c, k - 1) + [c]
  }

  lemma {:induction false} ZerosValue(k: nat)
    ensures IsDigits(Repeat('0', k)) && DigitsValue(Repeat('0', k)) == 0
  {
    if k > 0 {
      assert Repeat('0', k)[..k - 1] == Repeat('0', k - 1);
      ZerosValue(k - 1);
    }
  }

  /** Python's `s.zfill(width)` for a string without a sign: left-pad with '0', never truncate. */
  function ZFill(s: string, width: nat): string
  {
    if |s| >= width then s else Repeat('0', width - |s|) + s
  }

  /** Zero-padding keeps a numeral a numeral of the same value, at least `width` long. */
  lemma ZFillNumeral(s: string, width: nat)
    requires IsDigits(s)
    ensures IsDigits(ZFill(s, width))
    ensures DigitsValue(ZFill(s, width)) == DigitsValue(s)
    ensures |ZFill(s, width)| == if |s| >= width then |s| else width
  {
    if |s| < width {
      ZerosValue(width - |s|);
      DigitsValueConcat(Repeat('0', width - |s|), s);
    }
  }

  // ---------------------------------------------------------------------
  // Parsing numbers (int() and float() on form fields)
  // ---------------------------------------------------------------------

  /** `int(s)`: an optional sign followed by one or more ASCII digits; anything else raises. */
  function ParseInt(s: string): Option<int>
  {
    if |s| > 0 && (s[0] == '+' || s[0] == '-') then
      if |s| > 1 && IsDigits(s[1..]) then
        var v: int := DigitsValue(s[1..]);
        Some(if s[0] == '-' then -v else v)
      else None
    else if |s| > 0 && IsDigits(s) then Some(DigitsValue(s))
    else None
  }

  /** `int()` reads back what `str()` writes. */
  lemma ParseIntDecimal(i: int)
    ensures ParseInt(IntDecimal(i)) == Some(i)
  {
    if i < 0 {
      assert IntDecimal(i)[1..] == Decimal(-i);
    }
  }

  /** Different integers are formatted differently. */
  lemma IntDecimalInjective(i: int, j: int)
    requires IntDecimal(i) == IntDecimal(j)
    ensures i == j
  {
    ParseIntDecimal(i);
    ParseIntDecimal(j);
  }

  /** What `int()` accepts: an optional sign, then only digits; the value is negative only after a minus. */
  lemma ParseIntAccepts(s: string)
    requires ParseInt(s).Some?
    ensures |s| > 0 && (s[0] == '+' || s[0] == '-' || IsDigit(s[0]))
    ensures forall k :: 0 < k < |s| ==> IsDigit(s[k])
    ensures s[0] == '-' ==> ParseInt(s).value <= 0
    ensures s[0] != '-' ==> ParseInt(s).value >= 0
  {
    if s[0] == '+' || s[0] == '-' {
      assert forall k :: 0 < k < |s| ==> s[k] == s[1..][k - 1];
    }
  }

  /** A numeral reads as its value, leading zeros allowed. */
  lemma ParseIntDigits(d: string)
    requires |d| > 0 && IsDigits(d)
    ensures ParseInt(d) == Some(DigitsValue(d))
  {
    assert IsDigit(d[0]);
  }

  /** A sign before a numeral: `+` keeps its value, `-` negates it. */
  lemma ParseIntSigned(sign: char, d: string)
    requires sign == '+' || sign == '-'
    requires |d| > 0 && IsDigits(d)
    ensures var v: int := DigitsValue(d);
            ParseInt([sign] + d) == Some(if sign == '-' then -v else v)
  {
    assert ([sign] + d)[1..] == d;
  }

  /** Index of the first occurrence of `c` in `s`, or `|s|` when there is none. */
  function Find(s: string, c: char): (k: nat)
    ensures k <= |s|
    ensures k < |s| ==> s[k] == c
    ensures forall i :: 0 <= i < k ==> s[i] != c
  {
    if s == [] then 0
    else if s[0] == c then 0
    else 1 + Find(s[1..], c)
  }

  /**
   * A decimal amount in cents: optional sign, digits, optionally a point
   * and at most two fraction digits, with at least one digit overall.
   */
  function ParseCents(s: string): Option<int>
  {
    if |s| > 0 && s[0] == '-' then
      match ParseUnsignedCents(s[1..])
      case Some(v) => Some(-v)
      case None => None
    else if |s| > 0 && s[0] == '+' then
      match ParseUnsignedCents(s[1..])
      case Some(v) => Some(v)
      case None => None
    else
      match ParseUnsignedCents(s)
      case Some(v) => Some(v)
      case None => None
  }

  function ParseUnsignedCents(s: string): (r: Option<int>)
    ensures r.Some? ==> r.value >= 0
  {
    var k := Find(s, '.');
    if k == |s| then
      if |s| > 0 && IsDigits(s) then Some(100 * DigitsValue(s)) else None
    else
      var whole, frac := s[..k], s[k + 1..];
      if IsDigits(whole) && IsDigits(frac) && |frac| <= 2 && |whole| + |frac| > 0 then
        Some(100 * DigitsValue(whole) + DigitsValue(frac) * Pow10(2 - |frac|))
      else None
  }

  /** A price written as a whole number is that many units of 100 cents. */
  lemma ParseCentsWhole(n: nat)
    ensures ParseCents(Decimal(n)) == Some(100 * n)
  {
    var s := Decimal(n);
    assert forall i :: 0 <= i < |s| ==> s[i] != '.';
  }

  /**
   * A price with one or two fraction digits: "w.d" is w units and d tenths,
   * "w.de" is w units, d tenths and e hundredths, in cents.
   */
  lemma ParseCentsFraction(whole: nat, d: nat, e: nat)
    requires d < 10 && e < 10
    ensures ParseCents(Decimal(whole) + "." + [DigitChar(d)]) == Some(100 * whole + 10 * d)
    ensures ParseCents(Decimal(whole) + "." + [DigitChar(d), DigitChar(e)]) == Some(100 * whole + 10 * d + e)
  {
    FractionOne(whole, d);
    FractionTwo(whole, d, e);
  }

  lemma FractionOne(whole: nat, d: nat)
    requires d < 10
    ensures ParseCents(Decimal(whole) + "." + [DigitChar(d)]) == Some(100 * whole + 10 * d)
  {
    var one := [DigitChar(d)];
    assert one[..0] == [] && DigitsValue(one) == d && Pow10(1) == 10;
    ParseCentsPoint(Decimal(whole), one);
  }

  lemma FractionTwo(whole: nat, d: nat, e: nat)
    requires d < 10 && e < 10
    ensures ParseCents(Decimal(whole) + "." + [DigitChar(d), DigitChar(e)]) == Some(100 * whole + 10 * d + e)
  {
    var one, two := [DigitChar(d)], [DigitChar(d), DigitChar(e)];
    assert one[..0] == [] && DigitsValue(one) == d;
    assert two[..1] == one && DigitsValue(two) == 10 * d + e && Pow10(0) == 1;
    ParseCentsPoint(Decimal(whole), two);
  }

  /**
   * Digits, a point and at most two fraction digits, either side of the point
   * possibly empty but not both, leading zeros allowed: the cents they denote.
   */
  lemma ParseCentsPoint(w: string, f: string)
    requires IsDigits(w) && IsDigits(f) && |f| <= 2 && |w| + |f| > 0
    ensures ParseCents(w + "." + f) == Some(100 * DigitsValue(w) + DigitsValue(f) * Pow10(2 - |f|))
  {
    UnsignedPoint(w, f);
    PointNoSign(w, f);
  }

  lemma UnsignedPoint(w: string, f: string)
    requires IsDigits(w) && IsDigits(f) && |f| <= 2 && |w| + |f| > 0
    ensures ParseUnsignedCents(w + "." + f) == Some(100 * DigitsValue(w) + DigitsValue(f) * Pow10(2 - |f|))
  {
    var s := w + "." + f;
    PointSplit(w, f);
    UnsignedAt(s, |w|, w, f);
  }

  /** An amount whose first point is at `k`, with the digits `w` before it and `f` after it. */
  lemma UnsignedAt(s: string, k: nat, w: string, f: string)
    requires k < |s| && Find(s, '.') == k && s[..k] == w && s[k + 1..] == f
    requires IsDigits(w) && IsDigits(f) && |f| <= 2 && |w| + |f| > 0
    ensures ParseUnsignedCents(s) == Some(100 * DigitsValue(w) + DigitsValue(f) * Pow10(2 - |f|))
  {
  }

  /** Digits, a point and digits do not start with a sign. */
  lemma PointNoSign(w: string, f: string)
    requires IsDigits(w)
    ensures var s := w + "." + f; s[0] != '-' && s[0] != '+'
  {
    if |w| > 0 {
      assert IsDigit(w[0]);
    }
  }

  /** A numeral without a point, leading zeros allowed, is that many units of 100 cents. */
  lemma ParseCentsNumeral(w: string)
    requires |w| > 0 && IsDigits(w)
    ensures ParseCents(w) == Some(100 * DigitsValue(w))
  {
    assert IsDigit(w[0]);
    assert forall i :: 0 <= i < |w| ==> w[i] != '.';
  }

  /** A sign before an unsigned amount: `+` keeps its value, `-` negates it. */
  lemma ParseCentsSigned(sign: char, t: string)
    requires sign == '+' || sign == '-'
    requires |t| > 0 && t[0] != '+' && t[0] != '-'
    ensures ParseCents([sign] + t).Some? <==> ParseCents(t).Some?
    ensures ParseCents(t).Some? ==>
      ParseCents([sign] + t).value == if sign == '-' then -ParseCents(t).value else ParseCents(t).value
  {
    assert ([sign] + t)[1..] == t;
  }

  /** Digits, a point and digits split at the point, and do not start with a sign. */
  lemma PointSplit(w: string, f: string)
    requires IsDigits(w) && IsDigits(f)
    ensures var s := w + "." + f; Find(s, '.') == |w| && s[..|w|] == w && s[|w| + 1..] == f
  {
    var s := w + "." + f;
    assert s[|w|] == '.';
    assert forall i :: 0 <= i < |w| ==> s[i] == w[i];
  }

  // ---------------------------------------------------------------------
  // strip(), upper(), replace() and filters
  // ---------------------------------------------------------------------

  /** The characters Python's `str.strip()` removes (`str.isspace`). */
  predicate IsSpace(c: char) {
    || c == ' '
    || '\t' <= c <= '\r'
    || '\U{1c}' <= c <= '\U{1f}'
    || c == '\U{85}' || c == '\U{a0}' || c == '\U{1680}'
    || '\U{2000}' <= c <= '\U{200a}'
    || c == '\U{2028}' || c == '\U{2029}' || c == '\U{202f}' || c == '\U{205f}'
    || c == '\U{3000}'
  }

  /** `s.lstrip()`: the suffix of `s` left after dropping its leading whitespace. */
  function StripStart(s: string): (r: string)
    ensures |r| <= |s| && r == s[|s| - |r|..]
    ensures forall i :: 0 <= i < |s| - |r| ==> IsSpace(s[i])
    ensures r == [] || !IsSpace(r[0])
  {
    if |s| > 0 && IsSpace(s[0]) then StripStart(s[1..]) else s
  }

  /** `s.rstrip()`: the prefix of `s` left after dropping its trailing whitespace. */
  function StripEnd(s: string): (r: string)
    ensures |r| <= |s| && r == s[..|r|]
    ensures forall i :: |r| <= i < |s| ==> IsSpace(s[i])
    ensures r == [] || !IsSpace(r[|r| - 1])
  {
    if |s| > 0 && IsSpace(s[|s| - 1]) then StripEnd(s[..|s| - 1]) else s
  }

  /** `s.strip()`. */
  function Strip(s: string): string
  {
    StripEnd(StripStart(s))
  }

  /** `s.strip()` is empty exactly when `s` is made of whitespace only. */
  lemma StripEmpty(s: string)
    ensures Strip(s) == [] <==> forall i :: 0 <= i < |s| ==> IsSpace(s[i])
  {
    var t := StripStart(s);
    if t != [] {
      assert !IsSpace(t[0]);
      assert StripEnd(t) != [];
      assert !IsSpace(s[|s| - |t|]);
    }
  }

  /** A stripped string has no whitespace at either end, so stripping again changes nothing. */
  lemma StripIdempotent(s: string)
    ensures Strip(Strip(s)) == Strip(s)
  {
    var r := Strip(s);
    var t := StripStart(s);
    if r != [] {
      assert r == t[..|r|];
      assert r[0] == t[0];
      assert !IsSpace(r[0]);
    }
    assert StripStart(r) == r;
  }

  function UpperChar(c: char): char {
    if 'a' <= c <= 'z' then (c as int - 'a' as int + 'A' as int) as char else c
  }

  /** `s.upper()` restricted to ASCII letters. */
  function Upper(s: string): (r: string)
    ensures |r| == |s|
    ensures forall i :: 0 <= i < |s| ==> r[i] == UpperChar(s[i])
    ensures forall i :: 0 <= i < |r| ==> !('a' <= r[i] <= 'z')
  {
    if s == [] then [] else [UpperChar(s[0])] + Upper(s[1..])
  }

  lemma UpperIdempotent(s: string)
    ensures Upper(Upper(s)) == Upper(s)
  {
  }

  /** `s.replace(from, to)` for single characters. */
  function ReplaceChar(s: string, from: char, to: char): (r: string)
    ensures |r| == |s|
    ensures forall i :: 0 <= i < |s| ==> r[i] == if s[i] == from then to else s[i]
  {
    if s == [] then [] else [if s[0] == from then to else s[0]] + ReplaceChar(s[1..], from, to)
  }

  /** `s.replace(c, '')`: every other character, in order. */
  function RemoveChar(s: string, c: char): (r: string)
    ensures c !in r
    ensures forall x :: x != c ==> multiset(r)[x] == multiset(s)[x]
  {
    if s == [] then []
    else
      assert s == [s[0]] + s[1..];
      (if s[0] == c then [] else [s[0]]) + RemoveChar(s[1..], c)
  }

  /** Removal works piece by piece, so the kept characters stay in their order. */
  lemma {:induction false} RemoveCharConcat(a: string, b: string, c: char)
    ensures RemoveChar(a + b, c) == RemoveChar(a, c) + RemoveChar(b, c)
  {
    if a == [] {
      assert a + b == b;
    } else {
      assert (a + b)[0] == a[0] && (a + b)[1..] == a[1..] + b;
      RemoveCharConcat(a[1..], b, c);
    }
  }

  /** A single character is dropped when it is `c` and kept otherwise. */
  lemma RemoveCharSingle(x: char, c: char)
    ensures RemoveChar([x], c) == if x == c then [] else [x]
  {
    assert [x][1..] == [];
  }

  /** `re.sub(r'[^0-9]', '', s)`: the ASCII digits of `s`, in order. */
  function KeepDigits(s: string): (r: string)
    ensures IsDigits(r)
    ensures forall x :: IsDigit(x) ==> multiset(r)[x] == multiset(s)[x]
  {
    if s == [] then []
    else
      assert s == [s[0]] + s[1..];
      (if IsDigit(s[0]) then [s[0]] else []) + KeepDigits(s[1..])
  }

  /** Filtering works piece by piece, so the kept digits stay in their order. */
  lemma {:induction false} KeepDigitsConcat(a: string, b: string)
    ensures KeepDigits(a + b) == KeepDigits(a) + KeepDigits(b)
  {
    if a == [] {
      assert a + b == b;
    } else {
      assert (a + b)[0] == a[0] && (a + b)[1..] == a[1..] + b;
      KeepDigitsConcat(a[1..], b);
    }
  }

  /** A single character is kept exactly when it is a digit. */
  lemma KeepDigitsSingle(x: char)
    ensures KeepDigits([x]) == if IsDigit(x) then [x] else []
  {
    assert [x][1..] == [];
  }

  /** A string that is already all digits is left as it is. */
  lemma {:induction false} KeepDigitsOfDigits(s: string)
    requires IsDigits(s)
    ensures KeepDigits(s) == s
  {
    if s != [] {
      KeepDigitsOfDigits(s[1..]);
    }
  }

  lemma KeepDigitsIdempotent(s: string)
    ensures KeepDigits(KeepDigits(s)) == KeepDigits(s)
  {
    KeepDigitsOfDigits(KeepDigits(s));
  }

  /** Removing a character that does not occur changes nothing. */
  lemma {:induction false} RemoveAbsentChar(s: string, c: char)
    requires c !in s
    ensures RemoveChar(s, c) == s
  {
    if s != [] {
      RemoveAbsentChar(s[1..], c);
    }
  }
}
