/**
 * The monthly history export: the company's invoices of one calendar
 * month in creation order, each followed by its details in `order`,
 * laid out one detail per row under a six-column header.
 */
module History {
  import opened Strings
  import opened Sorting
  import opened Models
  import opened Sheets

  predicate InMonth(inv: Invoice, companyId: nat, year: int, month: int) {
    inv.companyId == companyId && inv.createdAt.year == year && inv.createdAt.month == month
  }

  /** `Invoice.objects.filter(company=..., created_at__year=..., created_at__month=...)` in store order. */
  function MonthSelection(invoices: seq<Invoice>, companyId: nat, year: int, month: int): seq<Invoice> {
    if invoices == [] then []
    else
      var last := invoices[|invoices| - 1];
      MonthSelection(invoices[..|invoices| - 1], companyId, year, month)
        + (if InMonth(last, companyId, year, month) then [last] else [])
  }

  lemma {:induction false} MonthSelectionMembers(invoices: seq<Invoice>, companyId: nat, year: int, month: int)
    ensures forall inv :: inv in MonthSelection(invoices, companyId, year, month)
                      <==> inv in invoices && InMonth(inv, companyId, year, month)
  {
    if invoices != [] {
      var init := invoices[..|invoices| - 1];
      assert invoices == init + [invoices[|invoices| - 1]];
      MonthSelectionMembers(init, companyId, year, month);
    }
  }

  /** The filter keeps every invoice of the month as often as it is stored, and no other. */
  lemma {:induction false} MonthSelectionCount(invoices: seq<Invoice>, companyId: nat, year: int, month: int, inv: Invoice)
    ensures multiset(MonthSelection(invoices, companyId, year, month))[inv]
         == if InMonth(inv, companyId, year, month) then multiset(invoices)[inv] else 0
  {
    if invoices != [] {
      var init, last := invoices[..|invoices| - 1], invoices[|invoices| - 1];
      assert invoices == init + [last];
      MonthSelectionCount(init, companyId, year, month, inv);
    }
  }

  /** The same query `.order_by('created_at')`. */
  function MonthInvoices(invoices: seq<Invoice>, companyId: nat, year: int, month: int): seq<Invoice> {
    SortBy(MonthSelection(invoices, companyId, year, month), CreationLe)
  }

  /** The selected invoices are exactly the company's invoices of that month, in creation order. */
  lemma MonthInvoicesSpec(invoices: seq<Invoice>, companyId: nat, year: int, month: int)
    ensures forall inv :: inv in MonthInvoices(invoices, companyId, year, month)
                      <==> inv in invoices && InMonth(inv, companyId, year, month)
    ensures forall inv :: multiset(MonthInvoices(invoices, companyId, year, month))[inv]
                      == if InMonth(inv, companyId, year, month) then multiset(invoices)[inv] else 0
    ensures SortedBy(MonthInvoices(invoices, companyId, year, month), CreationLe)
  {
    var sel := MonthSelection(invoices, companyId, year, month);
    forall inv
      ensures multiset(sel)[inv] == if InMonth(inv, companyId, year, month) then multiset(invoices)[inv] else 0
    {
      MonthSelectionCount(invoices, companyId, year, month, inv);
    }
    MonthSelectionMembers(invoices, companyId, year, month);
    CreationOrder();
    SortBySorted(sel, CreationLe);
    SortByPermutation(sel, CreationLe);
    assert forall inv :: inv in MonthInvoices(invoices, companyId, year, month) <==> inv in multiset(sel);
  }

  /** The details that belong to one invoice, in store order. */
  function OwnDetails(details: seq<DetailRecord>, invoiceId: nat): seq<DetailRecord> {
    if details == [] then []
    else
      var last := details[|details| - 1];
      OwnDetails(details[..|details| - 1], invoiceId) + (if last.invoiceId == invoiceId then [last] else [])
  }

  lemma {:induction false} OwnDetailsMembers(details: seq<DetailRecord>, invoiceId: nat)
    ensures forall d :: d in OwnDetails(details, invoiceId) <==> d in details && d.invoiceId == invoiceId
  {
    if details != [] {
      var init := details[..|details| - 1];
      assert details == init + [details[|details| - 1]];
      OwnDetailsMembers(init, invoiceId);
    }
  }

  lemma {:induction false} OwnDetailsConcat(a: seq<DetailRecord>, b: seq<DetailRecord>, invoiceId: nat)
    ensures OwnDetails(a + b, invoiceId) == OwnDetails(a, invoiceId) + OwnDetails(b, invoiceId)
  {
    if b == [] {
      assert a + b == a;
    } else {
      assert (a + b)[..|a + b| - 1] == a + b[..|b| - 1];
      OwnDetailsConcat(a, b[..|b| - 1], invoiceId);
    }
  }

  /** The selection keeps every detail of the invoice as often as it is stored, and no other. */
  lemma {:induction false} OwnDetailsCount(details: seq<DetailRecord>, invoiceId: nat, d: DetailRecord)
    ensures multiset(OwnDetails(details, invoiceId))[d] == if d.invoiceId == invoiceId then multiset(details)[d] else 0
  {
    if details != [] {
      var init, last := details[..|details| - 1], details[|details| - 1];
      assert details == init + [last];
      OwnDetailsCount(init, invoiceId, d);
    }
  }

  /** `invoice.details.all()`: the invoice's details by ascending `order`. */
  function DetailsOf(details: seq<DetailRecord>, invoiceId: nat): seq<DetailRecord> {
    SortBy(OwnDetails(details, invoiceId), OrderLe)
  }

  lemma DetailsOfSpec(details: seq<DetailRecord>, invoiceId: nat)
    ensures forall d :: d in DetailsOf(details, invoiceId) <==> d in details && d.invoiceId == invoiceId
    ensures forall d :: multiset(DetailsOf(details, invoiceId))[d]
                    == if d.invoiceId == invoiceId then multiset(details)[d] else 0
    ensures SortedBy(DetailsOf(details, invoiceId), OrderLe)
  {
    var own := OwnDetails(details, invoiceId);
    forall d: DetailRecord ensures multiset(own)[d] == if d.invoiceId == invoiceId then multiset(details)[d] else 0 {
      OwnDetailsCount(details, invoiceId, d);
    }
    OwnDetailsMembers(details, invoiceId);
    DetailOrder();
    SortBySorted(own, OrderLe);
    SortByPermutation(own, OrderLe);
    assert forall d :: d in DetailsOf(details, invoiceId) <==> d in multiset(own);
  }

  /** One row of the export. */
  datatype HistoryRow = HistoryRow(
    number: string, createdAt: DateTime, itemName: string, quantity: int, unitPrice: int, amount: int)

  function RowOf(inv: Invoice, d: DetailRecord): HistoryRow {
    HistoryRow(inv.number, inv.createdAt, d.itemName, d.quantity, d.unitPrice, d.amount)
  }

  /** The rows of one invoice: one per detail, in the order given. */
  function InvoiceRows(inv: Invoice, ds: seq<DetailRecord>): (rows: seq<HistoryRow>)
    ensures |rows| == |ds|
    ensures forall j :: 0 <= j < |ds| ==> rows[j] == RowOf(inv, ds[j])
  {
    if ds == [] then [] else [RowOf(inv, ds[0])] + InvoiceRows(inv, ds[1..])
  }

  /** The rows of one invoice in the export: its details by `order`. */
  function Group(inv: Invoice, details: seq<DetailRecord>): seq<HistoryRow> {
    InvoiceRows(inv, DetailsOf(details, inv.id))
  }

  /** The rows of each invoice, invoice by invoice. */
  function Groups(invoices: seq<Invoice>, details: seq<DetailRecord>): seq<seq<HistoryRow>> {
    seq(|invoices|, i requires 0 <= i < |invoices| => Group(invoices[i], details))
  }

  lemma GroupsConcat(a: seq<Invoice>, b: seq<Invoice>, details: seq<DetailRecord>)
    ensures Groups(a + b, details) == Groups(a, details) + Groups(b, details)
  {
    assert forall i :: 0 <= i < |a| ==> (a + b)[i] == a[i];
    assert forall i :: |a| <= i < |a + b| ==> (a + b)[i] == b[i - |a|];
  }

  /** The groups joined, first to last. */
  function Concat<U>(gs: seq<seq<U>>): seq<U> {
    if gs == [] then [] else Concat(gs[..|gs| - 1]) + gs[|gs| - 1]
  }

  lemma {:induction false} ConcatAppend<U>(a: seq<seq<U>>, b: seq<seq<U>>)
    ensures Concat(a + b) == Concat(a) + Concat(b)
  {
    if b == [] {
      assert a + b == a;
    } else {
      var init, last := b[..|b| - 1], b[|b| - 1];
      assert (a + b)[..|a + b| - 1] == a + init;
      assert (a + b)[|a + b| - 1] == last;
      ConcatAppend(a, init);
      assert Concat(a + b) == Concat(a + init) + last;
      assert Concat(b) == Concat(init) + last;
      assert Concat(a) + Concat(init) + last == Concat(a) + (Concat(init) + last);
    }
  }

  lemma ConcatSingleton<U>(g: seq<U>)
    ensures Concat([g]) == g
  {
    assert [g][..0] == [];
  }

  /** The invoice by detail product: each invoice's rows, invoice after invoice. */
  function Flatten(invoices: seq<Invoice>, details: seq<DetailRecord>): seq<HistoryRow> {
    Concat(Groups(invoices, details))
  }

  /** Flattening distributes over concatenation of the invoice list. */
  lemma FlattenConcat(a: seq<Invoice>, b: seq<Invoice>, details: seq<DetailRecord>)
    ensures Flatten(a + b, details) == Flatten(a, details) + Flatten(b, details)
  {
    GroupsConcat(a, b, details);
    ConcatAppend(Groups(a, details), Groups(b, details));
  }

  /** Appending one invoice appends its rows. */
  lemma FlattenSnoc(xs: seq<Invoice>, x: Invoice, details: seq<DetailRecord>)
    ensures Flatten(xs + [x], details) == Flatten(xs, details) + Group(x, details)
  {
    FlattenConcat(xs, [x], details);
    assert Groups([x], details) == [Group(x, details)];
    ConcatSingleton(Group(x, details));
  }

  /** The number of details of the selected invoices. */
  function DetailCount(invoices: seq<Invoice>, details: seq<DetailRecord>): nat {
    if invoices == [] then 0
    else
      var last := invoices[|invoices| - 1];
      DetailCount(invoices[..|invoices| - 1], details) + |OwnDetails(details, last.id)|
  }

  lemma GroupLength(inv: Invoice, details: seq<DetailRecord>)
    ensures |Group(inv, details)| == |OwnDetails(details, inv.id)|
  {
  }

  /** There is one row per detail of the selected invoices. */
  lemma {:induction false} FlattenLength(invoices: seq<Invoice>, details: seq<DetailRecord>)
    ensures |Flatten(invoices, details)| == DetailCount(invoices, details)
  {
    if invoices != [] {
      var init := invoices[..|invoices| - 1];
      var last := invoices[|invoices| - 1];
      assert invoices == init + [last];
      FlattenSnoc(init, last, details);
      FlattenLength(init, details);
      GroupLength(last, details);
      assert DetailCount(invoices, details) == DetailCount(init, details) + |OwnDetails(details, last.id)|;
      assert |Flatten(invoices, details)| == |Flatten(init, details)| + |Group(last, details)|;
    }
  }

  /**
   * The rows come invoice by invoice: the rows of invoice `i` are its details
   * in `order`, preceded by the rows of the invoices before it.
   */
  lemma FlattenGroups(invoices: seq<Invoice>, details: seq<DetailRecord>, i: nat)
    requires i < |invoices|
    ensures Flatten(invoices, details)
         == Flatten(invoices[..i], details)
          + InvoiceRows(invoices[i], DetailsOf(details, invoices[i].id))
          + Flatten(invoices[i + 1..], details)
  {
    assert invoices == invoices[..i] + [invoices[i]] + invoices[i + 1..];
    FlattenConcat(invoices[..i] + [invoices[i]], invoices[i + 1..], details);
    FlattenSnoc(invoices[..i], invoices[i], details);
  }

  const Headers: seq<string> := ["請求書番号", "作成日時", "請求内容", "個数", "単価", "金額"]

  const HistoryTimePattern := "%Y-%m-%d %H:%M"

  /** The value a history row puts in column `col` (1 to 6). */
  function RowValue(r: HistoryRow, col: nat): Value
    requires 1 <= col <= 6
  {
    if col == 1 then Text(r.number)
    else if col == 2 then Moment(HistoryTimePattern, r.createdAt)
    else if col == 3 then Text(r.itemName)
    else if col == 4 then Whole(r.quantity)
    else if col == 5 then Money(r.unitPrice)
    else Money(r.amount)
  }

  predicate InGrid(c: Cell, lastRow: nat) {
    1 <= c.column <= 6 && 1 <= c.row <= lastRow
  }

  /** Row 1 holds the six headers. */
  predicate HasHeaders(sheet: Sheet) {
    forall col :: 1 <= col <= 6 ==> Cell(col, 1) in sheet && sheet[Cell(col, 1)] == Text(Headers[col - 1])
  }

  /** Rows 2 to `1 + |rows|` hold `rows`, one per row. */
  predicate HoldsRows(sheet: Sheet, rows: seq<HistoryRow>) {
    forall r, col :: 2 <= r < 2 + |rows| && 1 <= col <= 6 ==>
      Cell(col, r) in sheet && sheet[Cell(col, r)] == RowValue(rows[r - 2], col)
  }

  /** Writes row `row` with the six values of `hr`. */
  method WriteRow(before: Sheet, row: nat, hr: HistoryRow) returns (sheet: Sheet)
    ensures forall col :: 1 <= col <= 6 ==> Cell(col, row) in sheet && sheet[Cell(col, row)] == RowValue(hr, col)
    ensures forall c {:trigger c in sheet} :: c in sheet <==> c in before || (c.row == row && 1 <= c.column <= 6)
    ensures forall c :: c in before && c.row != row ==> sheet[c] == before[c]
  {
    sheet := before[Cell(1, row) := Text(hr.number)];
    sheet := sheet[Cell(2, row) := Moment(HistoryTimePattern, hr.createdAt)];
    sheet := sheet[Cell(3, row) := Text(hr.itemName)];
    sheet := sheet[Cell(4, row) := Whole(hr.quantity)];
    sheet := sheet[Cell(5, row) := Money(hr.unitPrice)];
    sheet := sheet[Cell(6, row) := Money(hr.amount)];
  }

  /** Writes the rows of one invoice's details from row `row` on; returns the next free row. */
  method WriteInvoiceRows(before: Sheet, row: nat, inv: Invoice, ds: seq<DetailRecord>) returns (sheet: Sheet, next: nat)
    ensures next == row + |ds|
    ensures forall r, col :: row <= r < next && 1 <= col <= 6 ==>
      Cell(col, r) in sheet && sheet[Cell(col, r)] == RowValue(RowOf(inv, ds[r - row]), col)
    ensures forall c {:trigger c in sheet} :: c in sheet <==> c in before || (row <= c.row < next && 1 <= c.column <= 6)
    ensures forall c :: c in before && c.row < row ==> sheet[c] == before[c]
  {
    sheet := before;
    next := row;
    for j := 0 to |ds|
      invariant next == row + j
      invariant forall r, col :: row <= r < next && 1 <= col <= 6 ==>
        Cell(col, r) in sheet && sheet[Cell(col, r)] == RowValue(RowOf(inv, ds[r - row]), col)
      invariant forall c {:trigger c in sheet} :: c in sheet <==> c in before || (row <= c.row < next && 1 <= c.column <= 6)
      invariant forall c :: c in before && c.row < row ==> sheet[c] == before[c]
    {
      sheet := WriteRow(sheet, next, RowOf(inv, ds[j]));
      next := next + 1;
    }
  }

  /** Row 1: the six headers, and nothing else. */
  method WriteHeaderRow() returns (sheet: Sheet)
    ensures HasHeaders(sheet)
    ensures forall c {:trigger c in sheet} :: c in sheet <==> InGrid(c, 1)
  {
    sheet := map[];
    for col := 1 to 7
      invariant forall c :: 1 <= c < col ==> Cell(c, 1) in sheet && sheet[Cell(c, 1)] == Text(Headers[c - 1])
      invariant forall c {:trigger c in sheet} :: c in sheet <==> c.row == 1 && 1 <= c.column < col
    {
      sheet := sheet[Cell(col, 1) := Text(Headers[col - 1])];
    }
  }

  /** Writing an invoice's rows below the rows already written extends the rows the sheet holds. */
  lemma RowsAppended(before: Sheet, sheet: Sheet, done: seq<HistoryRow>, inv: Invoice, ds: seq<DetailRecord>)
    requires HasHeaders(before) && HoldsRows(before, done)
    requires forall c {:trigger c in before} :: c in before <==> InGrid(c, 1 + |done|)
    requires forall r, col :: 2 + |done| <= r < 2 + |done| + |ds| && 1 <= col <= 6 ==>
      Cell(col, r) in sheet && sheet[Cell(col, r)] == RowValue(RowOf(inv, ds[r - 2 - |done|]), col)
    requires forall c {:trigger c in sheet} ::
      c in sheet <==> c in before || (2 + |done| <= c.row < 2 + |done| + |ds| && 1 <= c.column <= 6)
    requires forall c :: c in before && c.row < 2 + |done| ==> sheet[c] == before[c]
    ensures HasHeaders(sheet)
    ensures HoldsRows(sheet, done + InvoiceRows(inv, ds))
    ensures forall c {:trigger c in sheet} :: c in sheet <==> InGrid(c, 1 + |done| + |ds|)
  {
    var rows := done + InvoiceRows(inv, ds);
    forall r, col | 2 <= r < 2 + |rows| && 1 <= col <= 6
      ensures Cell(col, r) in sheet && sheet[Cell(col, r)] == RowValue(rows[r - 2], col)
    {
      if r < 2 + |done| {
        assert Cell(col, r) in before;
      } else {
        assert rows[r - 2] == RowOf(inv, ds[r - 2 - |done|]);
      }
    }
    forall col | 1 <= col <= 6
      ensures Cell(col, 1) in sheet && sheet[Cell(col, 1)] == Text(Headers[col - 1])
    {
      assert Cell(col, 1) in before;
    }
  }

  /**
   * Builds the export sheet: the header row, then one row per detail of each
   * invoice in turn, numbered from 2; nothing else is written.
   */
  method BuildHistorySheet(invoices: seq<Invoice>, details: seq<DetailRecord>) returns (sheet: Sheet)
    ensures HasHeaders(sheet)
    ensures HoldsRows(sheet, Flatten(invoices, details))
    ensures forall c {:trigger c in sheet} :: c in sheet <==> InGrid(c, 1 + |Flatten(invoices, details)|)
  {
    sheet := WriteHeaderRow();
    var row := 2;
    for i := 0 to |invoices|
      invariant row == 2 + |Flatten(invoices[..i], details)|
      invariant HasHeaders(sheet)
      invariant HoldsRows(sheet, Flatten(invoices[..i], details))
      invariant forall c {:trigger c in sheet} :: c in sheet <==> InGrid(c, row - 1)
    {
      ghost var done := Flatten(invoices[..i], details);
      sheet, row := AppendInvoice(sheet, row, invoices[i], details, done);
      assert invoices[..i + 1] == invoices[..i] + [invoices[i]];
      FlattenSnoc(invoices[..i], invoices[i], details);
    }
    assert invoices[..|invoices|] == invoices;
  }

  /** The loop body: the rows of one invoice's details, in `order`, below the rows written so far. */
  method AppendInvoice(before: Sheet, row: nat, inv: Invoice, details: seq<DetailRecord>, ghost done: seq<HistoryRow>)
    returns (sheet: Sheet, next: nat)
    requires row == 2 + |done|
    requires HasHeaders(before) && HoldsRows(before, done)
    requires forall c {:trigger c in before} :: c in before <==> InGrid(c, row - 1)
    ensures next == 2 + |done + Group(inv, details)|
    ensures HasHeaders(sheet) && HoldsRows(sheet, done + Group(inv, details))
    ensures forall c {:trigger c in sheet} :: c in sheet <==> InGrid(c, next - 1)
  {
    var ds := DetailsOf(details, inv.id);
    sheet, next := WriteInvoiceRows(before, row, inv, ds);
    RowsAppended(before, sheet, done, inv, ds);
  }
}
