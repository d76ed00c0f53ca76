/**
 * Numbering: the next company code, computed from the codes already in
 * use, and the invoice number, computed from the company code and the
 * date and probed against the numbers already in use.
 */
module Codes {
  import opened Strings
  import opened Models

  // ---------------------------------------------------------------------
  // Next company code
  // ---------------------------------------------------------------------

  /** A code that takes part in numbering: exactly four characters, all ASCII digits. */
  predicate IsNumericCode(code: string) {
    |code| == 4 && IsDigits(code)
  }

  /** The values of the numeric codes among `codes`, in the order they occur. */
  function NumericValues(codes: seq<string>): seq<nat>
  {
    if codes == [] then []
    else
      var last := codes[|codes| - 1];
      NumericValues(codes[..|codes| - 1]) + (if IsNumericCode(last) then [DigitsValue(last)] else [])
  }

  /** A value is collected exactly when some numeric code has it. */
  lemma {:induction false} NumericValuesMembers(codes: seq<string>)
    ensures forall c :: c in codes && IsNumericCode(c) ==> DigitsValue(c) in NumericValues(codes)
    ensures forall v :: v in NumericValues(codes) ==>
      exists c :: c in codes && IsNumericCode(c) && DigitsValue(c) == v
  {
    if codes != [] {
      var init := codes[..|codes| - 1];
      assert codes == init + [codes[|codes| - 1]];
      NumericValuesMembers(init);
    }
  }

  lemma {:induction false} NumericValuesConcat(a: seq<string>, b: seq<string>)
    ensures NumericValues(a + b) == NumericValues(a) + NumericValues(b)
  {
    if b != [] {
      assert (a + b)[..|a + b| - 1] == a + b[..|b| - 1];
      NumericValuesConcat(a, b[..|b| - 1]);
    } else {
      assert a + b == a;
    }
  }

  /** `max()` of a non-empty sequence. */
  function Max(vs: seq<nat>): (m: nat)
    requires vs != []
    ensures m in vs
    ensures forall v :: v in vs ==> v <= m
  {
    if |vs| == 1 then vs[0]
    else
      var m := Max(vs[1..]);
      assert vs == [vs[0]] + vs[1..];
      if vs[0] > m then vs[0] else m
  }

  /**
   * The next company code: "0001" when no code is numeric, otherwise one
   * more than the largest numeric code, zero-padded to width four.
   */
  function NextCode(codes: seq<string>): string {
    var vs := NumericValues(codes);
    if vs == [] then "0001" else ZFill(Decimal(Max(vs) + 1), 4)
  }

  /** The scan over the existing codes, collecting the numeric ones, then taking their maximum. */
  method ComputeNextCode(codes: seq<string>) returns (next: string)
    ensures next == NextCode(codes)
  {
    next := "0001";
    if |codes| > 0 {
      var numeric: seq<nat> := [];
      for i := 0 to |codes|
        invariant numeric == NumericValues(codes[..i])
      {
        assert codes[..i + 1][..i] == codes[..i];
        if IsNumericCode(codes[i]) {
          numeric := numeric + [DigitsValue(codes[i])];
        }
      }
      assert codes[..|codes|] == codes;
      if numeric != [] {
        var maxCode := Max(numeric);
        next := ZFill(Decimal(maxCode + 1), 4);
      }
    }
  }

  /** The next code is a numeral of at least four digits whose value exceeds every numeric code. */
  lemma NextCodeExceeds(codes: seq<string>)
    ensures IsDigits(NextCode(codes)) && |NextCode(codes)| >= 4
    ensures forall c :: c in codes && IsNumericCode(c) ==> DigitsValue(c) < DigitsValue(NextCode(codes))
  {
    var vs := NumericValues(codes);
    NumericValuesMembers(codes);
    if vs == [] {
      assert DigitsValue("0001") == 1 by {
        assert "0001"[..3] == "000" && "000"[..2] == "00" && "00"[..1] == "0";
      }
    } else {
      ZFillNumeral(Decimal(Max(vs) + 1), 4);
    }
  }

  /** With some numeric code present, the next code's value is exactly one more than the largest. */
  lemma NextCodeIsSuccessor(codes: seq<string>, c: string)
    requires c in codes && IsNumericCode(c)
    requires forall d :: d in codes && IsNumericCode(d) ==> DigitsValue(d) <= DigitsValue(c)
    ensures IsDigits(NextCode(codes)) && DigitsValue(NextCode(codes)) == DigitsValue(c) + 1
  {
    var vs := NumericValues(codes);
    NumericValuesMembers(codes);
    assert DigitsValue(c) in vs;
    var m := Max(vs);
    assert m == DigitsValue(c);
    ZFillNumeral(Decimal(m + 1), 4);
  }

  /** "0001" is the result when there is no numeric code. */
  lemma NextCodeFirst(codes: seq<string>)
    requires forall c :: c in codes ==> !IsNumericCode(c)
    ensures NextCode(codes) == "0001"
  {
    var vs := NumericValues(codes);
    NumericValuesMembers(codes);
    assert |vs| > 0 ==> vs[0] in vs;
  }

  /** The next code clashes with no numeric code in use. */
  lemma NextCodeFresh(codes: seq<string>)
    ensures forall c :: c in codes && IsNumericCode(c) ==> c != NextCode(codes)
  {
    NextCodeExceeds(codes);
  }

  /** The next code satisfies the company-code validator. */
  lemma NextCodeValid(codes: seq<string>)
    ensures IsValidCompanyCode(NextCode(codes))
  {
    NextCodeExceeds(codes);
    DigitsAreValidCode(NextCode(codes));
  }

  /** A code that is not numeric, wherever it stands, has no effect on the next code. */
  lemma NextCodeIgnores(a: seq<string>, c: string, b: seq<string>)
    requires !IsNumericCode(c)
    ensures NextCode(a + [c] + b) == NextCode(a + b)
  {
    NumericValuesConcat(a + [c], b);
    NumericValuesConcat(a, [c]);
    NumericValuesConcat(a, b);
    assert NumericValues([c]) == [] by {
      assert [c][..0] == [];
    }
    assert NumericValues(a + [c]) == NumericValues(a);
  }

  /** The next code keeps width four exactly while no numeric code has the value 9999. */
  lemma NextCodeWidth(codes: seq<string>)
    ensures |NextCode(codes)| == 4
        <==> forall c :: c in codes && IsNumericCode(c) ==> DigitsValue(c) != 9999
  {
    var vs := NumericValues(codes);
    NumericValuesMembers(codes);
    if vs != [] {
      var m := Max(vs);
      var c :| c in codes && IsNumericCode(c) && DigitsValue(c) == m;
      DigitsValueBound(c);
      assert Pow10(4) == 10000;
      DecimalLength(m + 1, 4);
      if m == 9999 {
        assert |Decimal(m + 1)| > 4;
      } else {
        forall d | d in codes && IsNumericCode(d)
          ensures DigitsValue(d) != 9999
        {
          assert DigitsValue(d) in vs;
        }
      }
    }
  }

  /** Existing codes 0001, 0002 and ABCD give 0003. */
  lemma NextCodeExample()
    ensures NextCode(["0001", "0002", "ABCD"]) == "0003"
  {
    var codes := ["0001", "0002", "ABCD"];
    assert DigitsValue("0001") == 1 by {
      assert "0001"[..3] == "000" && "000"[..2] == "00" && "00"[..1] == "0";
    }
    assert DigitsValue("0002") == 2 by {
      assert "0002"[..3] == "000" && "000"[..2] == "00" && "00"[..1] == "0";
    }
    assert codes[..2] == ["0001", "0002"];
    assert codes[..2][..1] == ["0001"];
    assert ["0001"][..0] == [];
    assert NumericValues(codes) == [1, 2];
    assert Max([1, 2]) == 2;
    assert Decimal(3) == "3";
  }

  /** Padding never truncates: after 9999 comes the five-digit 10000. */
  lemma NextCodeOverflow()
    ensures NextCode(["9999"]) == "10000"
  {
    assert DigitsValue("9999") == 9999 by {
      assert "9999"[..3] == "999" && "999"[..2] == "99" && "99"[..1] == "9";
    }
    assert ["9999"][..0] == [];
    assert NumericValues(["9999"]) == [9999];
    assert Decimal(10000) == "10000" by {
      assert Decimal(1) == "1";
      assert Decimal(10) == "10";
      assert Decimal(100) == "100";
      assert Decimal(1000) == "1000";
    }
  }

  /**
   * Five-digit codes take no part in numbering, so while 9999 and 10000 are
   * both in use the next code is 10000 again: every proposal clashes with an
   * existing code.
   */
  lemma NextCodeRepeats(codes: seq<string>)
    requires "9999" in codes && "10000" in codes
    ensures NextCode(codes) == "10000"
    ensures NextCode(codes) in codes
  {
    var vs := NumericValues(codes);
    NumericValuesMembers(codes);
    assert DigitsValue("9999") == 9999 by {
      assert "9999"[..3] == "999" && "999"[..2] == "99" && "99"[..1] == "9";
    }
    assert IsNumericCode("9999");
    assert 9999 in vs;
    var m := Max(vs);
    var c :| c in codes && IsNumericCode(c) && DigitsValue(c) == m;
    DigitsValueBound(c);
    assert Pow10(4) == 10000;
    assert m == 9999;
    NextCodeOverflow();
    assert ["9999"][..0] == [];
    assert NumericValues(["9999"]) == [9999];
  }

  // ---------------------------------------------------------------------
  // Invoice numbers
  // ---------------------------------------------------------------------

  /** `{code}_{year}_{month:02d}_{day:02d}` */
  function BaseInvoiceNumber(code: string, date: DateTime): string {
    code + "_" + Decimal(date.year) + "_" + ZFill(Decimal(date.month), 2) + "_" + ZFill(Decimal(date.day), 2)
  }

  /**
   * The base number of a calendar date is the code, an underscore, the year,
   * then the month and the day as two-digit numerals (`TwoDigits`), each after an underscore.
   */
  lemma BaseInvoiceNumberFormat(code: string, date: DateTime)
    requires 1 <= date.month <= 12 && 1 <= date.day <= 31
    ensures var n, p := BaseInvoiceNumber(code, date), code + "_" + Decimal(date.year) + "_";
            && |n| == |p| + 5 && n[..|p|] == p && n[|p| + 2] == '_'
            && n[|p|..|p| + 2] == TwoDigits(date.month) && n[|p| + 3..] == TwoDigits(date.day)
  {
    SplitParts(code + "_" + Decimal(date.year) + "_", TwoDigits(date.month), TwoDigits(date.day));
  }

  /** A prefix followed by two two-character parts joined by an underscore splits back into them. */
  lemma SplitParts(p: string, mm: string, dd: string)
    requires |mm| == 2 && |dd| == 2
    ensures var n := p + mm + "_" + dd;
            |n| == |p| + 5 && n[..|p|] == p && n[|p| + 2] == '_' && n[|p|..|p| + 2] == mm && n[|p| + 3..] == dd
  {
  }

  /** The year part of the prefix sits between the first and the last underscore. */
  lemma SplitYear(code: string, y: string)
    ensures var p := code + "_" + y + "_"; |p| == |code| + |y| + 2 && p[|code| + 1..|p| - 1] == y
  {
  }

  /** For one company, different calendar dates give different base numbers. */
  lemma BaseInvoiceNumberInjective(code: string, a: DateTime, b: DateTime)
    requires 1 <= a.month <= 12 && 1 <= a.day <= 31 && 1 <= b.month <= 12 && 1 <= b.day <= 31
    ensures BaseInvoiceNumber(code, a) == BaseInvoiceNumber(code, b)
        <==> a.year == b.year && a.month == b.month && a.day == b.day
  {
    if BaseInvoiceNumber(code, a) == BaseInvoiceNumber(code, b) {
      BaseParts(code, a);
      BaseParts(code, b);
      SplitEqual(code, Decimal(a.year), Decimal(b.year), TwoDigits(a.month), TwoDigits(b.month),
                 TwoDigits(a.day), TwoDigits(b.day));
      DecimalInjective(a.year, b.year);
    }
  }

  /** The base number with its month and day parts named. */
  lemma BaseParts(code: string, date: DateTime)
    requires 1 <= date.month <= 12 && 1 <= date.day <= 31
    ensures BaseInvoiceNumber(code, date)
         == code + "_" + Decimal(date.year) + "_" + TwoDigits(date.month) + "_" + TwoDigits(date.day)
  {
  }

  /** Two numbers `code_y_mm_dd` with two-character month and day parts are equal only part by part. */
  lemma SplitEqual(code: string, ya: string, yb: string, ma: string, mb: string, da: string, db: string)
    requires |ma| == 2 && |mb| == 2 && |da| == 2 && |db| == 2
    requires code + "_" + ya + "_" + ma + "_" + da == code + "_" + yb + "_" + mb + "_" + db
    ensures ya == yb && ma == mb && da == db
  {
    var pa, pb := code + "_" + ya + "_", code + "_" + yb + "_";
    var n := pa + ma + "_" + da;
    SplitParts(pa, ma, da);
    SplitParts(pb, mb, db);
    SplitYear(code, ya);
    SplitYear(code, yb);
    assert |pa| == |pb|;
    assert pa == n[..|pa|] == pb;
  }

  /** `f"{n:02d}"` of a month or a day: two digits whose value is `n`. */
  function TwoDigits(n: nat): (s: string)
    requires 1 <= n <= 31
    ensures |s| == 2 && IsDigits(s) && DigitsValue(s) == n
  {
    ZFillNumeral(Decimal(n), 2);
    DecimalLength(n, 2);
    assert Pow10(2) == 100 by { assert Pow10(1) == 10; }
    ZFill(Decimal(n), 2)
  }

  /** The `k`-th number the probe tries: the base itself, then `base_1`, `base_2`, ... */
  function Candidate(base: string, k: nat): string {
    if k == 0 then base else base + "_" + Decimal(k)
  }

  /** Different probe steps try different numbers. */
  lemma CandidateInjective(base: string, i: nat, j: nat)
    ensures Candidate(base, i) == Candidate(base, j) <==> i == j
  {
    if i != 0 && j != 0 && Candidate(base, i) == Candidate(base, j) {
      assert Candidate(base, i)[|base| + 1..] == Decimal(i);
      assert Candidate(base, j)[|base| + 1..] == Decimal(j);
    }
  }

  /** `k` is where the probe stops: the `k`-th candidate is unused and all before it are used. */
  predicate IsFirstFree(base: string, existing: set<string>, k: nat) {
    && Candidate(base, k) !in existing
    && forall j :: 0 <= j < k ==> Candidate(base, j) in existing
  }

  /** The candidates tried before step `n`. */
  function CandidateSet(base: string, n: nat): set<string> {
    if n == 0 then {} else CandidateSet(base, n - 1) + {Candidate(base, n - 1)}
  }

  lemma {:induction false} CandidateSetContents(base: string, n: nat)
    ensures forall m: nat :: Candidate(base, m) in CandidateSet(base, n) <==> m < n
    ensures |CandidateSet(base, n)| == n
  {
    if n > 0 {
      CandidateSetContents(base, n - 1);
      forall m: nat
        ensures Candidate(base, m) == Candidate(base, n - 1) <==> m == n - 1
      {
        CandidateInjective(base, m, n - 1);
      }
    }
  }

  /** The probe stops within as many steps as there are numbers in use. */
  lemma FirstFreeBound(base: string, existing: set<string>, k: nat)
    requires IsFirstFree(base, existing, k)
    ensures k <= |existing|
  {
    CandidateSetContents(base, k);
    forall x | x in CandidateSet(base, k)
      ensures x in existing
    {
      CandidateSetMember(base, k, x);
    }
    SubsetCardinality(CandidateSet(base, k), existing);
  }

  lemma {:induction false} SubsetCardinality<T>(a: set<T>, b: set<T>)
    requires a <= b
    ensures |a| <= |b|
  {
    if a != {} {
      var x :| x in a;
      SubsetCardinality(a - {x}, b - {x});
    }
  }

  lemma {:induction false} CandidateSetMember(base: string, n: nat, x: string)
    requires x in CandidateSet(base, n)
    ensures exists j :: 0 <= j < n && x == Candidate(base, j)
  {
    if x != Candidate(base, n - 1) {
      CandidateSetMember(base, n - 1, x);
    }
  }

  /** With `X` in use the probe gives `X_1`; with `X` and `X_1` in use it gives `X_2`. */
  lemma FirstFreeExamples(x: string, k: nat)
    ensures IsFirstFree(x, {x}, k) <==> k == 1
    ensures IsFirstFree(x, {x, x + "_1"}, k) <==> k == 2
  {
    assert Decimal(1) == "1" && Decimal(2) == "2";
    assert Candidate(x, 1) == x + "_1";
    assert Candidate(x, 2) == x + "_2";
    assert Candidate(x, 2) != x + "_1" by {
      assert Candidate(x, 2)[|x| + 1] == '2';
    }
    if k > 2 {
      assert Candidate(x, 2) !in {x, x + "_1"};
    }
    if k > 1 {
      assert Candidate(x, 1) !in {x};
    }
  }

  /**
   * The number an invoice gets: the submitted number stripped, when that is
   * non-empty; otherwise the first candidate not in use.
   */
  ghost predicate NumberAllocated(number: string, code: string, date: DateTime, existing: set<string>, posted: string) {
    if Strip(posted) != [] then number == Strip(posted)
    else exists k :: IsFirstFree(BaseInvoiceNumber(code, date), existing, k)
                  && number == Candidate(BaseInvoiceNumber(code, date), k)
  }

  /** The probe stops at one place only. */
  lemma FirstFreeUnique(base: string, existing: set<string>, i: nat, j: nat)
    requires IsFirstFree(base, existing, i) && IsFirstFree(base, existing, j)
    ensures i == j
  {
    assert i < j ==> Candidate(base, i) in existing;
    assert j < i ==> Candidate(base, j) in existing;
  }

  /** The allocation rule determines the number: there is exactly one such number. */
  lemma NumberAllocatedUnique(a: string, b: string, code: string, date: DateTime, existing: set<string>, posted: string)
    requires NumberAllocated(a, code, date, existing, posted)
    requires NumberAllocated(b, code, date, existing, posted)
    ensures a == b
  {
    if Strip(posted) == [] {
      var base := BaseInvoiceNumber(code, date);
      var i :| IsFirstFree(base, existing, i) && a == Candidate(base, i);
      var j :| IsFirstFree(base, existing, j) && b == Candidate(base, j);
      FirstFreeUnique(base, existing, i, j);
    }
  }

  /**
   * The invoice number: the base number probed against the numbers in use,
   * then replaced by the submitted number when that, stripped, is non-empty.
   */
  method AllocateInvoiceNumber(code: string, date: DateTime, existing: set<string>, posted: string)
    returns (number: string)
    ensures Strip(posted) != [] ==> number == Strip(posted)
    ensures Strip(posted) == [] ==> number !in existing
    ensures NumberAllocated(number, code, date, existing, posted)
  {
    var base := BaseInvoiceNumber(code, date);
    number := base;
    var counter: nat := 1;
    ghost var probed: set<string> := {};
    while number in existing
      invariant counter >= 1
      invariant number == Candidate(base, counter - 1)
      invariant forall j :: 0 <= j < counter - 1 ==> Candidate(base, j) in existing
      invariant probed == CandidateSet(base, counter - 1)
      invariant probed <= existing
      decreases |existing| - |probed|
    {
      CandidateSetContents(base, counter - 1);
      CandidateSetContents(base, counter);
      probed := probed + {number};
      SubsetCardinality(probed, existing);
      number := base + "_" + Decimal(counter);
      counter := counter + 1;
    }
    assert IsFirstFree(base, existing, counter - 1);
    var postNumber := Strip(posted);
    if postNumber != [] {
      number := postNumber;
    }
  }
}
