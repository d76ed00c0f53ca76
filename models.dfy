/**
 * The records of the invoicing app: users and their roles, client
 * companies, line-item templates, invoices and invoice details, with the
 * orderings their listings use, the company-code validator and the
 * amount rule applied when a detail is saved.
 */
module Models {
  import opened Strings
  import opened Sorting

  // ---------------------------------------------------------------------
  // Users and roles
  // ---------------------------------------------------------------------

  /**
   * The role column holds one of three names; creating a user stores the
   * submitted text without checking it against the choices, so any other
   * text is kept as `Unlisted`.
   */
  datatype Role = General | Manager | Director | Unlisted(name: string)

  function RoleName(r: Role): string {
    match r
    case General => "general"
    case Manager => "manager"
    case Director => "director"
    case Unlisted(name) => name
  }

  /** The role a stored role text denotes; `RoleName` gives the text back. */
  function RoleOf(s: string): (r: Role)
    ensures RoleName(r) == s
    ensures r.Unlisted? <==> s != "general" && s != "manager" && s != "director"
  {
    if s == "general" then General
    else if s == "manager" then Manager
    else if s == "director" then Director
    else Unlisted(s)
  }

  /** `RoleOf` inverts `RoleName` on every role it can produce. */
  lemma RoleOfName(r: Role)
    requires r.Unlisted? ==> r.name != "general" && r.name != "manager" && r.name != "director"
    ensures RoleOf(RoleName(r)) == r
  {
  }

  /** `is_director`: the role text is "director". */
  predicate IsDirector(r: Role) {
    RoleName(r) == "director"
  }

  /** `is_manager`: the role text is "manager" or "director". */
  predicate IsManager(r: Role) {
    RoleName(r) == "manager" || RoleName(r) == "director"
  }

  /** `is_admin`: may use the admin screens; the role text is "manager" or "director". */
  predicate IsAdmin(r: Role) {
    RoleName(r) in ["manager", "director"]
  }

  /**
   * The two "manager or above" predicates agree on every role, a director is
   * an admin, and the predicates depend only on the role the text denotes.
   */
  lemma RolePredicates(r: Role)
    ensures IsManager(r) == IsAdmin(r)
    ensures IsDirector(r) ==> IsAdmin(r)
    ensures IsAdmin(r) <==> RoleOf(RoleName(r)) in {Manager, Director}
    ensures IsDirector(r) <==> RoleOf(RoleName(r)) == Director
    ensures !r.Unlisted? ==> (IsAdmin(r) <==> r in {Manager, Director}) && (IsDirector(r) <==> r == Director)
  {
  }

  datatype User = User(id: nat, username: string, role: Role)

  // ---------------------------------------------------------------------
  // Companies
  // ---------------------------------------------------------------------

  predicate IsCodeChar(c: char) {
    'A' <= c <= 'Z' || IsDigit(c)
  }

  /**
   * The company-code validator `^[A-Z0-9]+$`, applied with `re.search`:
   * Python's `$` also matches just before a final newline.
   */
  predicate IsValidCompanyCode(s: string) {
    var body := if |s| > 0 && s[|s| - 1] == '\n' then s[..|s| - 1] else s;
    |body| > 0 && forall i :: 0 <= i < |body| ==> IsCodeChar(body[i])
  }

  /** Every non-empty digit string passes the validator. */
  lemma DigitsAreValidCode(s: string)
    requires |s| > 0 && IsDigits(s)
    ensures IsValidCompanyCode(s)
  {
    assert s[|s| - 1] != '\n' by {
      assert IsDigit(s[|s| - 1]);
    }
    assert forall i :: 0 <= i < |s| ==> IsCodeChar(s[i]);
  }

  datatype Company = Company(
    id: nat,
    code: string,
    name: string,
    contactPerson: string,
    address: string,
    postalCode: string,
    prefecture: string,
    phone: string,
    email: string)

  datatype ItemTemplate = ItemTemplate(id: nat, name: string, description: string)

  /** Lexicographic order of strings by code point. */
  predicate StrLe(a: string, b: string) {
    a == [] || (b != [] && (a[0] < b[0] || (a[0] == b[0] && StrLe(a[1..], b[1..]))))
  }

  lemma {:induction false} StrLeTotal(a: string, b: string)
    ensures StrLe(a, b) || StrLe(b, a)
  {
    if a != [] && b != [] && a[0] == b[0] {
      StrLeTotal(a[1..], b[1..]);
    }
  }

  lemma {:induction false} StrLeTransitive(a: string, b: string, c: string)
    requires StrLe(a, b) && StrLe(b, c)
    ensures StrLe(a, c)
  {
    if a != [] && b != [] && c != [] && a[0] == b[0] == c[0] {
      StrLeTransitive(a[1..], b[1..], c[1..]);
    }
  }

  lemma {:induction false} StrLeAntisymmetric(a: string, b: string)
    requires StrLe(a, b) && StrLe(b, a)
    ensures a == b
  {
    if a != [] && b != [] {
      StrLeAntisymmetric(a[1..], b[1..]);
      assert a == [a[0]] + a[1..] && b == [b[0]] + b[1..];
    }
  }

  /** Companies are listed by ascending `company_code`. */
  predicate CodeLe(a: Company, b: Company) {
    StrLe(a.code, b.code)
  }

  lemma CodeOrder()
    ensures TotalPreorder(CodeLe)
  {
    forall x: Company, y: Company
      ensures CodeLe(x, y) || CodeLe(y, x)
    {
      StrLeTotal(x.code, y.code);
    }
    forall x: Company, y: Company, z: Company | CodeLe(x, y) && CodeLe(y, z)
      ensures CodeLe(x, z)
    {
      StrLeTransitive(x.code, y.code, z.code);
    }
  }

  /** Line-item templates are listed by ascending name. */
  predicate NameLe(a: ItemTemplate, b: ItemTemplate) {
    StrLe(a.name, b.name)
  }

  lemma NameOrder()
    ensures TotalPreorder(NameLe)
  {
    forall x: ItemTemplate, y: ItemTemplate
      ensures NameLe(x, y) || NameLe(y, x)
    {
      StrLeTotal(x.name, y.name);
    }
    forall x: ItemTemplate, y: ItemTemplate, z: ItemTemplate | NameLe(x, y) && NameLe(y, z)
      ensures NameLe(x, z)
    {
      StrLeTransitive(x.name, y.name, z.name);
    }
  }

  // ---------------------------------------------------------------------
  // Invoices and their details
  // ---------------------------------------------------------------------

  datatype DateTime = DateTime(
    year: nat, month: nat, day: nat,
    hour: nat, minute: nat, second: nat, microsecond: nat)

  predicate IsCalendarTime(t: DateTime) {
    1 <= t.month <= 12 && 1 <= t.day <= 31 && t.hour < 24 && t.minute < 60
    && t.second < 60 && t.microsecond < 1000000
  }

  /** The fields of a time, most significant first. */
  function Fields(t: DateTime): seq<int> {
    [t.year, t.month, t.day, t.hour, t.minute, t.second, t.microsecond]
  }

  /** The number of values each field after the year can take (one more than its largest value). */
  const FieldBases: seq<nat> := [13, 32, 24, 60, 60, 1000000]

  /** A point on a single time line for ordering: the fields read as the digits of one number. */
  function Instant(t: DateTime): int {
    Positional(Fields(t), FieldBases)
  }

  /** The value of the digits `ds`, where `bs` gives the base of every digit after the first. */
  function Positional(ds: seq<int>, bs: seq<nat>): int
    requires |ds| == |bs| + 1
    decreases |bs|
  {
    if bs == [] then ds[0]
    else Place(Positional(ds[..|ds| - 1], bs[..|bs| - 1]), ds[|ds| - 1], bs[|bs| - 1])
  }

  /** `x` shifted one place in the given base, with `digit` in the new place. */
  function Place(x: int, digit: int, base: nat): int {
    x * base + digit
  }

  /** Every digit after the first lies below its base. */
  predicate InBases(ds: seq<int>, bs: seq<nat>)
    requires |ds| == |bs| + 1
  {
    forall i :: 1 <= i < |ds| ==> 0 <= ds[i] < bs[i - 1]
  }

  /** `x` comes before `y` field by field: earlier on the fields before the last, or equal there and lower on the last. */
  predicate LexLess(x: seq<int>, y: seq<int>)
    requires |x| == |y|
  {
    |x| > 0
    && (LexLess(x[..|x| - 1], y[..|y| - 1]) || (x[..|x| - 1] == y[..|y| - 1] && x[|x| - 1] < y[|y| - 1]))
  }

  /** On calendar times the creation order is field by field: year, month, day, hour, minute, second, microsecond. */
  lemma InstantOrder(a: DateTime, b: DateTime)
    requires IsCalendarTime(a) && IsCalendarTime(b)
    ensures Instant(a) < Instant(b) <==> LexLess(Fields(a), Fields(b))
    ensures Instant(a) == Instant(b) <==> a == b
  {
    PositionalOrder(Fields(a), Fields(b), FieldBases);
    if Fields(a) == Fields(b) {
      assert a.year == Fields(a)[0] == Fields(b)[0] == b.year;
      assert a.microsecond == Fields(a)[6] == Fields(b)[6] == b.microsecond;
    }
  }

  /** Numbers written with in-range digits compare as their digit lists do, and are equal only when those are. */
  lemma {:induction false} PositionalOrder(x: seq<int>, y: seq<int>, bs: seq<nat>)
    requires |x| == |bs| + 1 && |y| == |bs| + 1
    requires InBases(x, bs) && InBases(y, bs)
    ensures Positional(x, bs) < Positional(y, bs) <==> LexLess(x, y)
    ensures Positional(x, bs) == Positional(y, bs) <==> x == y
  {
    var n := |bs|;
    if n == 0 {
      assert x == [x[0]] && y == [y[0]];
    } else {
      var x', y', bs' := x[..n], y[..n], bs[..n - 1];
      forall i | 1 <= i < n ensures 0 <= x'[i] < bs'[i - 1] && 0 <= y'[i] < bs'[i - 1] {
        assert 0 <= x[i] < bs[i - 1] && 0 <= y[i] < bs[i - 1];
      }
      PositionalOrder(x', y', bs');
      assert 0 <= x[n] < bs[n - 1] && 0 <= y[n] < bs[n - 1];
      Radix(Positional(x', bs'), x[n], Positional(y', bs'), y[n], bs[n - 1]);
      assert x == x' + [x[n]] && y == y' + [y[n]];
    }
  }

  lemma RadixStep(x: int, k: nat, base: nat)
    ensures (x + k + 1) * base == x * base + base + k * base
    ensures k * base >= 0
  {
  }

  /** Positional notation: a number with a last digit `r` compares by the places before it first, then by `r`. */
  lemma Radix(x: int, r: int, y: int, s: int, base: nat)
    requires 0 <= r < base && 0 <= s < base
    ensures Place(x, r, base) < Place(y, s, base) <==> x < y || (x == y && r < s)
    ensures Place(x, r, base) == Place(y, s, base) <==> x == y && r == s
  {
    if x < y {
      RadixStep(x, y - x - 1, base);
    } else if y < x {
      RadixStep(y, x - y - 1, base);
    }
  }

  datatype Invoice = Invoice(
    id: nat,
    number: string,
    companyId: nat,
    customerId: string,
    createdAt: DateTime,
    createdBy: Option<nat>)

  /** Invoices are ordered by their creation time. */
  predicate CreationLe(a: Invoice, b: Invoice) {
    Instant(a.createdAt) <= Instant(b.createdAt)
  }

  lemma CreationOrder()
    ensures TotalPreorder(CreationLe)
  {
  }

  /** On calendar times, creation order is the order of the time fields, year first. */
  lemma CreationLeFields(a: Invoice, b: Invoice)
    requires IsCalendarTime(a.createdAt) && IsCalendarTime(b.createdAt)
    ensures CreationLe(a, b) <==> !LexLess(Fields(b.createdAt), Fields(a.createdAt))
  {
    InstantOrder(b.createdAt, a.createdAt);
  }

  /** The default listing of invoices: newest first. */
  predicate NewestFirst(a: Invoice, b: Invoice) {
    Instant(a.createdAt) >= Instant(b.createdAt)
  }

  lemma NewestFirstOrder()
    ensures TotalPreorder(NewestFirst)
  {
  }

  /** An invoice detail as stored: quantity as an integer, prices and amounts in cents. */
  datatype DetailRecord = DetailRecord(
    id: nat,
    invoiceId: nat,
    itemName: string,
    quantity: int,
    unitPrice: int,
    amount: int,
    order: int)

  /** Details are listed by ascending `order`. */
  predicate OrderLe(a: DetailRecord, b: DetailRecord) {
    a.order <= b.order
  }

  lemma DetailOrder()
    ensures TotalPreorder(OrderLe)
  {
  }

  /** An `InvoiceDetail` being built; `Save` fixes its amount before it is stored. */
  class InvoiceDetail {
    var id: nat
    var invoiceId: nat
    var itemName: string
    var quantity: int
    var unitPrice: int
    var amount: int
    var order: int

    constructor (id: nat, invoiceId: nat, itemName: string, quantity: int, unitPrice: int, amount: int, order: int)
      ensures this.id == id && this.invoiceId == invoiceId && this.itemName == itemName
      ensures this.quantity == quantity && this.unitPrice == unitPrice
      ensures this.amount == amount && this.order == order
    {
      this.id := id;
      this.invoiceId := invoiceId;
      this.itemName := itemName;
      this.quantity := quantity;
      this.unitPrice := unitPrice;
      this.amount := amount;
      this.order := order;
    }

    /** The row the object is stored as. */
    function Record(): DetailRecord
      reads this
    {
      DetailRecord(id, invoiceId, itemName, quantity, unitPrice, amount, order)
    }

    /** `save`: the amount becomes quantity times unit price, whatever it was; nothing else changes. */
    method Save()
      modifies this
      ensures amount == quantity * unitPrice
      ensures id == old(id) && invoiceId == old(invoiceId) && itemName == old(itemName)
      ensures quantity == old(quantity) && unitPrice == old(unitPrice) && order == old(order)
    {
      amount := quantity * unitPrice;
    }
  }
}
