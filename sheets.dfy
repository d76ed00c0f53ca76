/**
 * Spreadsheet output: a sheet as a map from cell to value, the writes that
 * fill the invoice template, and the names the generated files are saved
 * under.
 */
module Sheets {
  import opened Strings
  import opened Models

  /** A cell value; `Moment` is a time written with a `strftime` pattern. */
  datatype Value =
    | Text(text: string)
    | Whole(number: int)
    | Money(cents: int)
    | Moment(pattern: string, at: DateTime)

  /** A cell address such as "A17": column A is 1, row 17. */
  datatype Cell = Cell(column: nat, row: nat)

  type Sheet = map<Cell, Value>

  const ColumnA: nat := 1
  const ColumnF: nat := 6
  const ColumnG: nat := 7
  const ColumnH: nat := 8

  /** Detail rows of the template start at row 17 and there are ten of them. */
  const FirstDetailRow: nat := 17
  const DetailRowCount: nat := 10

  const PrintedDatePattern := "%Y年%m月%d日"

  /** A8-A13, A16, F5, F8 and H5: the company block, the invoice number, the customer id and the date. */
  predicate IsHeaderCell(c: Cell) {
    || (c.column == ColumnA && 8 <= c.row <= 13)
    || c == Cell(ColumnA, 16)
    || c == Cell(ColumnF, 5)
    || c == Cell(ColumnF, 8)
    || c == Cell(ColumnH, 5)
  }

  /** Columns A, F, G and H of the first `k` detail rows. */
  predicate IsDetailCell(c: Cell, k: nat) {
    && (c.column == ColumnA || c.column == ColumnF || c.column == ColumnG || c.column == ColumnH)
    && FirstDetailRow <= c.row < FirstDetailRow + k
  }

  /** How many details the template shows: at most ten. */
  function ShownDetails(n: nat): (k: nat)
    ensures k <= DetailRowCount && k <= n
    ensures k == n || k == DetailRowCount
  {
    if n < DetailRowCount then n else DetailRowCount
  }

  /**
   * The header block: A8-A13 the company's contact person, name, address,
   * postal code and prefecture, phone and email; A16 and F5 the invoice
   * number; F8 the customer code; H5 the print date.
   */
  predicate HeaderWritten(sheet: Sheet, company: Company, number: string, code: string, printedAt: DateTime) {
    && Cell(ColumnA, 8) in sheet && sheet[Cell(ColumnA, 8)] == Text(company.contactPerson)
    && Cell(ColumnA, 9) in sheet && sheet[Cell(ColumnA, 9)] == Text(company.name)
    && Cell(ColumnA, 10) in sheet && sheet[Cell(ColumnA, 10)] == Text(company.address)
    && Cell(ColumnA, 11) in sheet && sheet[Cell(ColumnA, 11)] == Text(company.postalCode + " " + company.prefecture)
    && Cell(ColumnA, 12) in sheet && sheet[Cell(ColumnA, 12)] == Text(company.phone)
    && Cell(ColumnA, 13) in sheet && sheet[Cell(ColumnA, 13)] == Text(company.email)
    && Cell(ColumnA, 16) in sheet && sheet[Cell(ColumnA, 16)] == Text(number)
    && Cell(ColumnF, 5) in sheet && sheet[Cell(ColumnF, 5)] == Text(number)
    && Cell(ColumnF, 8) in sheet && sheet[Cell(ColumnF, 8)] == Text(code)
    && Cell(ColumnH, 5) in sheet && sheet[Cell(ColumnH, 5)] == Moment(PrintedDatePattern, printedAt)
  }

  /** The header writes: A8-A13 from the company, A16 and F5 the number, F8 the code, H5 the date. */
  method WriteHeader(template: Sheet, company: Company, number: string, code: string, printedAt: DateTime)
    returns (sheet: Sheet)
    ensures forall c {:trigger c in sheet} :: c in sheet <==> c in template || IsHeaderCell(c)
    ensures forall c :: c in template && !IsHeaderCell(c) ==> sheet[c] == template[c]
    ensures HeaderWritten(sheet, company, number, code, printedAt)
  {
    sheet := template;
    sheet := sheet[Cell(ColumnA, 8) := Text(company.contactPerson)];
    sheet := sheet[Cell(ColumnA, 9) := Text(company.name)];
    sheet := sheet[Cell(ColumnA, 10) := Text(company.address)];
    sheet := sheet[Cell(ColumnA, 11) := Text(company.postalCode + " " + company.prefecture)];
    sheet := sheet[Cell(ColumnA, 12) := Text(company.phone)];
    sheet := sheet[Cell(ColumnA, 13) := Text(company.email)];
    sheet := sheet[Cell(ColumnA, 16) := Text(number)];
    sheet := sheet[Cell(ColumnF, 5) := Text(number)];
    sheet := sheet[Cell(ColumnF, 8) := Text(code)];
    sheet := sheet[Cell(ColumnH, 5) := Moment(PrintedDatePattern, printedAt)];
  }

  /** The four writes of one detail row: item name, quantity, unit price and amount in A, F, G and H. */
  predicate HoldsDetail(sheet: Sheet, row: nat, detail: DetailRecord) {
    && Cell(ColumnA, row) in sheet && sheet[Cell(ColumnA, row)] == Text(detail.itemName)
    && Cell(ColumnF, row) in sheet && sheet[Cell(ColumnF, row)] == Whole(detail.quantity)
    && Cell(ColumnG, row) in sheet && sheet[Cell(ColumnG, row)] == Money(detail.unitPrice)
    && Cell(ColumnH, row) in sheet && sheet[Cell(ColumnH, row)] == Money(detail.amount)
  }

  predicate InDetailColumn(c: Cell) {
    c.column == ColumnA || c.column == ColumnF || c.column == ColumnG || c.column == ColumnH
  }

  /** One detail row: `sheet[f"A{row}"] = detail.item_name` and likewise F, G and H. */
  method WriteDetailRow(before: Sheet, row: nat, detail: DetailRecord) returns (sheet: Sheet)
    ensures HoldsDetail(sheet, row, detail)
    ensures forall c {:trigger c in sheet} ::
      c in sheet <==> c in before || (c.row == row && InDetailColumn(c))
    ensures forall c :: c in before && !(c.row == row && InDetailColumn(c)) ==> sheet[c] == before[c]
  {
    sheet := before[Cell(ColumnA, row) := Text(detail.itemName)];
    sheet := sheet[Cell(ColumnF, row) := Whole(detail.quantity)];
    sheet := sheet[Cell(ColumnG, row) := Money(detail.unitPrice)];
    sheet := sheet[Cell(ColumnH, row) := Money(detail.amount)];
  }

  /**
   * The filled template: it has the template's cells plus the header cells
   * and the cells of the first ten detail rows; the header block is written;
   * detail `i` fills row `17 + i`; every other cell is the template's, so no
   * row below 26 is touched.
   */
  ghost predicate Populated(
    template: Sheet, company: Company, number: string, code: string,
    printedAt: DateTime, details: seq<DetailRecord>, sheet: Sheet)
  {
    && (forall c {:trigger c in sheet} ::
          c in sheet <==> c in template || IsHeaderCell(c) || IsDetailCell(c, ShownDetails(|details|)))
    && HeaderWritten(sheet, company, number, code, printedAt)
    && (forall i :: 0 <= i < ShownDetails(|details|) ==> HoldsDetail(sheet, FirstDetailRow + i, details[i]))
    && (forall c :: c in template && !IsHeaderCell(c) && !IsDetailCell(c, ShownDetails(|details|)) ==>
          sheet[c] == template[c])
  }

  /** Rows past the tenth detail row are exactly as the template has them. */
  lemma PopulatedLeavesLowerRows(
    template: Sheet, company: Company, number: string, code: string,
    printedAt: DateTime, details: seq<DetailRecord>, sheet: Sheet, c: Cell)
    requires Populated(template, company, number, code, printedAt, details, sheet)
    requires c.row > FirstDetailRow + DetailRowCount - 1
    ensures c in sheet <==> c in template
    ensures c in template ==> sheet[c] == template[c]
  {
  }

  /** The detail writes: detail `i` into row `17 + i` for the first `k` details. */
  method WriteDetails(headed: Sheet, details: seq<DetailRecord>, k: nat) returns (sheet: Sheet)
    requires k <= |details|
    ensures forall c {:trigger c in sheet} :: c in sheet <==> c in headed || IsDetailCell(c, k)
    ensures forall c :: c in headed && !IsDetailCell(c, k) ==> sheet[c] == headed[c]
    ensures forall j :: 0 <= j < k ==> HoldsDetail(sheet, FirstDetailRow + j, details[j])
  {
    sheet := headed;
    for i := 0 to k
      invariant forall c {:trigger c in sheet} :: c in sheet <==> c in headed || IsDetailCell(c, i)
      invariant forall c :: c in headed && !IsDetailCell(c, i) ==> sheet[c] == headed[c]
      invariant forall j :: 0 <= j < i ==> HoldsDetail(sheet, FirstDetailRow + j, details[j])
    {
      sheet := WriteDetailRow(sheet, FirstDetailRow + i, details[i]);
    }
  }

  /** Fills the template: the header cells first, then the first ten details from row 17 on. */
  method PopulateTemplate(
    template: Sheet, company: Company, number: string, code: string,
    printedAt: DateTime, details: seq<DetailRecord>)
    returns (sheet: Sheet)
    ensures Populated(template, company, number, code, printedAt, details, sheet)
  {
    var headed := WriteHeader(template, company, number, code, printedAt);
    var k := ShownDetails(|details|);
    sheet := WriteDetails(headed, details, k);
    assert forall c :: IsHeaderCell(c) ==> !IsDetailCell(c, k);
    assert HeaderWritten(sheet, company, number, code, printedAt);
  }

  // ---------------------------------------------------------------------
  // File names
  // ---------------------------------------------------------------------

  /** The company name with '/' and then '\' replaced by '_'. */
  function SafeName(name: string): (r: string)
    ensures |r| == |name|
    ensures '/' !in r && '\\' !in r
    ensures forall i :: 0 <= i < |name| ==>
      r[i] == if name[i] == '/' || name[i] == '\\' then '_' else name[i]
  {
    ReplaceChar(ReplaceChar(name, '/', '_'), '\\', '_')
  }

  /** A name without separators is its own safe name. */
  lemma SafeNameKeeps(name: string)
    requires '/' !in name && '\\' !in name
    ensures SafeName(name) == name
  {
  }

  function InvoiceFileName(companyName: string, code: string, number: string): string {
    "invoice_" + SafeName(companyName) + "_" + code + "_" + number + ".xlsx"
  }

  /** "{year}年{month}月分", the title of the monthly sheet. */
  function MonthTitle(year: int, month: int): string {
    IntDecimal(year) + "年" + IntDecimal(month) + "月分"
  }

  function HistoryFileName(companyName: string, code: string, year: int, month: int): string {
    "invoice_" + SafeName(companyName) + "_" + code + "_" + MonthTitle(year, month) + ".xlsx"
  }

  predicate HasSeparator(s: string) {
    '/' in s || '\\' in s
  }

  lemma {:induction false} SeparatorConcat(a: string, b: string)
    ensures HasSeparator(a + b) <==> HasSeparator(a) || HasSeparator(b)
  {
    assert forall c :: c in a + b <==> c in a || c in b;
  }

  /**
   * The company name cannot put a path separator into an invoice file name:
   * the name has one exactly when the code or the invoice number has one.
   */
  lemma InvoiceFileNameSeparators(companyName: string, code: string, number: string)
    ensures HasSeparator(InvoiceFileName(companyName, code, number)) <==> HasSeparator(code) || HasSeparator(number)
  {
    var safe := SafeName(companyName);
    SeparatorConcat("invoice_", safe);
    SeparatorConcat("invoice_" + safe, "_");
    SeparatorConcat("invoice_" + safe + "_", code);
    SeparatorConcat("invoice_" + safe + "_" + code, "_");
    SeparatorConcat("invoice_" + safe + "_" + code + "_", number);
    SeparatorConcat("invoice_" + safe + "_" + code + "_" + number, ".xlsx");
  }

  /** The same holds of the monthly file name, where only the code can bring one in. */
  lemma HistoryFileNameSeparators(companyName: string, code: string, year: int, month: int)
    ensures HasSeparator(HistoryFileName(companyName, code, year, month)) <==> HasSeparator(code)
  {
    var safe := SafeName(companyName);
    var title := MonthTitle(year, month);
    MonthTitleNoSeparator(year, month);
    SeparatorConcat("invoice_", safe);
    SeparatorConcat("invoice_" + safe, "_");
    SeparatorConcat("invoice_" + safe + "_", code);
    SeparatorConcat("invoice_" + safe + "_" + code, "_");
    SeparatorConcat("invoice_" + safe + "_" + code + "_", title);
    SeparatorConcat("invoice_" + safe + "_" + code + "_" + title, ".xlsx");
  }

  lemma IntDecimalNoSeparator(i: int)
    ensures !HasSeparator(IntDecimal(i))
  {
    var d := Decimal(if i < 0 then -i else i);
    assert forall c :: c in d ==> IsDigit(c);
    SeparatorConcat("-", d);
  }

  lemma MonthTitleNoSeparator(year: int, month: int)
    ensures !HasSeparator(MonthTitle(year, month))
  {
    IntDecimalNoSeparator(year);
    IntDecimalNoSeparator(month);
    SeparatorConcat(IntDecimal(year), "年");
    SeparatorConcat(IntDecimal(year) + "年", IntDecimal(month));
    SeparatorConcat(IntDecimal(year) + "年" + IntDecimal(month), "月分");
  }

  /** Text cut at the first occurrence of a character that the head does not contain. */
  lemma SplitAtMark(a1: string, b1: string, a2: string, b2: string, c: char)
    requires c !in a1 && c !in a2
    requires a1 + [c] + b1 == a2 + [c] + b2
    ensures a1 == a2 && b1 == b2
  {
    var s := a1 + [c] + b1;
    assert s[|a1|] == c && s[|a2|] == c;
    assert forall k :: 0 <= k < |a1| ==> s[k] == a1[k] != c;
    assert forall k :: 0 <= k < |a2| ==> s[k] == a2[k] != c;
    assert |a1| == |a2|;
    assert a1 == s[..|a1|] == a2;
    assert b1 == s[|a1| + 1..] == b2;
  }

  /** The middle of a text whose head and tail are fixed. */
  lemma SplitMiddle(p: string, x: string, y: string, q: string)
    requires p + x + q == p + y + q
    ensures x == y
  {
    var s := p + x + q;
    assert |x| == |y|;
    assert x == s[|p|..|p| + |x|] == y;
  }

  lemma StripTail(x: string, y: string, q: string)
    requires x + q == y + q
    ensures x == y
  {
    assert x == (x + q)[..|x|];
  }

  /** The year numeral never holds the character that ends it in a title. */
  lemma YearMarkFree(i: int)
    ensures '年' !in IntDecimal(i)
  {
    var d := IntDecimal(i);
    assert forall k :: 0 <= k < |d| ==> d[k] == '-' || IsDigit(d[k]);
  }

  lemma Regroup(a: string, c: char, b: string, t: string)
    ensures a + [c] + b + t == a + [c] + (b + t)
  {
  }

  /** Different months, or the same month of different years, get different titles. */
  lemma MonthTitleInjective(y1: int, m1: int, y2: int, m2: int)
    ensures MonthTitle(y1, m1) == MonthTitle(y2, m2) <==> y1 == y2 && m1 == m2
  {
    if MonthTitle(y1, m1) == MonthTitle(y2, m2) {
      var tail := "月分";
      YearMarkFree(y1);
      YearMarkFree(y2);
      Regroup(IntDecimal(y1), '年', IntDecimal(m1), tail);
      Regroup(IntDecimal(y2), '年', IntDecimal(m2), tail);
      SplitAtMark(IntDecimal(y1), IntDecimal(m1) + tail, IntDecimal(y2), IntDecimal(m2) + tail, '年');
      StripTail(IntDecimal(m1), IntDecimal(m2), tail);
      IntDecimalInjective(y1, y2);
      IntDecimalInjective(m1, m2);
    }
  }

  /** One company's invoices with different numbers are saved under different names. */
  lemma InvoiceFileNameInjective(companyName: string, code: string, n1: string, n2: string)
    ensures InvoiceFileName(companyName, code, n1) == InvoiceFileName(companyName, code, n2) <==> n1 == n2
  {
    if InvoiceFileName(companyName, code, n1) == InvoiceFileName(companyName, code, n2) {
      SplitMiddle("invoice_" + SafeName(companyName) + "_" + code + "_", n1, n2, ".xlsx");
    }
  }

  /** One company's exports of different months are saved under different names. */
  lemma HistoryFileNameInjective(companyName: string, code: string, y1: int, m1: int, y2: int, m2: int)
    ensures HistoryFileName(companyName, code, y1, m1) == HistoryFileName(companyName, code, y2, m2)
        <==> y1 == y2 && m1 == m2
  {
    if HistoryFileName(companyName, code, y1, m1) == HistoryFileName(companyName, code, y2, m2) {
      SplitMiddle("invoice_" + SafeName(companyName) + "_" + code + "_", MonthTitle(y1, m1), MonthTitle(y2, m2), ".xlsx");
    }
    MonthTitleInjective(y1, m1, y2, m2);
  }
}
