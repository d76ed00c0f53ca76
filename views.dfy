/**
 * The request handlers of the invoicing app over an in-memory store: the
 * admin actions (adding companies, line-item templates and users, deleting
 * users and companies), the company lookup, invoice generation and the
 * monthly history export. Each handler's error responses are `Err` results.
 */
module Views {
  import opened Strings
  import opened Models
  import opened Codes
  import opened Intake
  import opened Sheets
  import opened History
  import opened Tables
  import opened Integrity

  /** The error responses of the handlers. */
  datatype Error =
    | Forbidden        // the acting user is not an admin (status 403)
    | CodeTaken        // the generated company code is already in use
    | UsernameTaken    // a user with that name exists
    | EmptyUsername    // `create_user` refuses an empty name
    | NotFound         // no record with that primary key
    | SelfDelete       // an admin tried to delete their own account
    | UnknownCompany   // no company with that code
    | NumberTaken      // the invoice number is already in use (unique column)
    | Malformed        // a quantity, price or amount does not convert
    | TemplateMissing  // the invoice template file is absent
    | BadPeriod        // the year or month does not convert
    | YearOutOfRange   // the year lookup cannot form its bounds: dates run from year 1 to 9999
    | NoHistory        // the company has no invoice in that month

  datatype Result<T> = Ok(value: T) | Err(error: Error)

  /**
   * The three clock readings of invoice generation: the date in the number,
   * the invoice's `created_at`, and the date printed into H5.
   */
  datatype Readings = Readings(numberDate: DateTime, createdAt: DateTime, printedAt: DateTime)

  /** The clock only ever reads calendar times. */
  predicate CalendarReadings(clock: Readings) {
    IsCalendarTime(clock.numberDate) && IsCalendarTime(clock.createdAt) && IsCalendarTime(clock.printedAt)
  }

  /** What a generated invoice returns: the stored invoice and details, the filled sheet and its file name. */
  datatype Generated = Generated(invoice: Invoice, details: seq<DetailRecord>, sheet: Sheet, fileName: string)

  /** The monthly export: sheet title, sheet and file name. */
  datatype Export = Export(title: string, sheet: Sheet, fileName: string)

  /** The detail `save` stores for a draft: the amount recomputed as quantity times unit price. */
  function NewDetail(id: nat, invoiceId: nat, d: Draft): (r: DetailRecord)
    ensures r.id == id && r.invoiceId == invoiceId && r.order == d.order
    ensures r.itemName == d.name && r.quantity == d.quantity && r.unitPrice == d.unitPrice
    ensures r.amount == r.quantity * r.unitPrice
  {
    DetailRecord(id, invoiceId, d.name, d.quantity, d.unitPrice, d.quantity * d.unitPrice, d.order)
  }

  /** The details stored for the drafts: consecutive ids from `firstId`, in the order of the drafts. */
  function StoredDetails(drafts: seq<Draft>, invoiceId: nat, firstId: nat): (r: seq<DetailRecord>)
    ensures |r| == |drafts|
  {
    if drafts == [] then []
    else
      var k := |drafts| - 1;
      StoredDetails(drafts[..k], invoiceId, firstId) + [NewDetail(firstId + k, invoiceId, drafts[k])]
  }

  lemma StoredDetailsSnoc(drafts: seq<Draft>, d: Draft, invoiceId: nat, firstId: nat)
    ensures StoredDetails(drafts + [d], invoiceId, firstId)
         == StoredDetails(drafts, invoiceId, firstId) + [NewDetail(firstId + |drafts|, invoiceId, d)]
  {
    assert (drafts + [d])[..|drafts|] == drafts;
  }

  /** The `j`-th stored detail is the `j`-th draft under key `firstId + j`. */
  lemma {:induction false} StoredDetailsAt(drafts: seq<Draft>, invoiceId: nat, firstId: nat)
    ensures forall j :: 0 <= j < |drafts| ==>
      StoredDetails(drafts, invoiceId, firstId)[j] == NewDetail(firstId + j, invoiceId, drafts[j])
  {
    if drafts != [] {
      var k := |drafts| - 1;
      StoredDetailsAt(drafts[..k], invoiceId, firstId);
    }
  }

  /** Storing the details of an existing invoice under fresh consecutive keys keeps the tables consistent. */
  lemma {:induction false} StoredDetailsValid(us: seq<User>, cs: seq<Company>, ts: seq<ItemTemplate>,
                                              vs: seq<Invoice>, ds: seq<DetailRecord>, n: nat,
                                              drafts: seq<Draft>, invoiceId: nat)
    requires StoreValid(us, cs, ts, vs, ds, n)
    requires HasInvoice(vs, invoiceId)
    ensures StoreValid(us, cs, ts, vs, ds + StoredDetails(drafts, invoiceId, n), n + |drafts|)
  {
    if drafts != [] {
      var init := drafts[..|drafts| - 1];
      var d := drafts[|drafts| - 1];
      assert drafts == init + [d];
      StoredDetailsValid(us, cs, ts, vs, ds, n, init, invoiceId);
      StoredDetailsSnoc(init, d, invoiceId, n);
      var before := ds + StoredDetails(init, invoiceId, n);
      InsertDetailValid(us, cs, ts, vs, before, n + |init|, NewDetail(n + |init|, invoiceId, d));
      assert ds + StoredDetails(drafts, invoiceId, n) == before + [NewDetail(n + |init|, invoiceId, d)];
    }
  }

  /** The submitted amount never reaches the store: every stored amount is quantity times unit price. */
  lemma StoredAmounts(drafts: seq<Draft>, invoiceId: nat, firstId: nat)
    ensures forall d :: d in StoredDetails(drafts, invoiceId, firstId) ==>
      d.amount == d.quantity * d.unitPrice && d.invoiceId == invoiceId
  {
    var r := StoredDetails(drafts, invoiceId, firstId);
    StoredDetailsAt(drafts, invoiceId, firstId);
    forall d | d in r
      ensures d.amount == d.quantity * d.unitPrice && d.invoiceId == invoiceId
    {
      var j :| 0 <= j < |r| && r[j] == d;
    }
  }

  /** The last year a date can have; the year lookup builds the first and the last instant of the year. */
  const MaxYear := 9999

  /** `int(text)` for a submitted year or month, or the current value when the field is absent. */
  function PeriodField(posted: Option<string>, current: int): (r: Option<int>)
    ensures posted.None? ==> r == Some(current)
    ensures posted.Some? ==> (r.Some? <==> ParseInt(posted.value).Some?)
  {
    match posted
    case None => Some(current)
    case Some(text) => ParseInt(text)
  }

  /** A posted year or month reads back as the number it shows, whatever the current value. */
  lemma PeriodFieldReads(i: int, current: int)
    ensures PeriodField(Some(IntDecimal(i)), current) == Some(i)
  {
    ParseIntDecimal(i);
  }

  class Store {
    var users: seq<User>
    var companies: seq<Company>
    var templates: seq<ItemTemplate>
    var invoices: seq<Invoice>
    var details: seq<DetailRecord>
    /** The next primary key handed out. */
    var nextId: nat

    /**
     * Primary keys, usernames, company codes and invoice numbers are unique;
     * keys are below `nextId`; every invoice's company and creator, and
     * every detail's invoice, exist.
     */
    ghost predicate Valid()
      reads this
    {
      StoreValid(users, companies, templates, invoices, details, nextId)
    }

    constructor ()
      ensures Valid()
      ensures users == [] && companies == [] && templates == [] && invoices == [] && details == []
    {
      users := [];
      companies := [];
      templates := [];
      invoices := [];
      details := [];
      nextId := 0;
      EmptyValid();
    }

    // -------------------------------------------------------------------
    // Admin actions
    // -------------------------------------------------------------------

    /** The code proposed for the next company on the admin screens. */
    method NextCompanyCode() returns (code: string)
      ensures code == NextCode(CodesOf(companies))
    {
      code := ComputeNextCode(CodesOf(companies));
    }

    /**
     * `add_company`: admins only; the code is generated, the postal code
     * loses its hyphens and the phone keeps only its digits; a code already
     * in use is refused and nothing is stored.
     */
    method AddCompany(
      actor: User, name: string, contactPerson: string, address: string, postalCode: string,
      prefecture: string, phone: string, email: string)
      returns (r: Result<Company>)
      requires Valid()
      modifies this
      ensures Valid()
      ensures !IsAdmin(actor.role) ==> r == Err(Forbidden)
      ensures IsAdmin(actor.role) && NextCode(CodesOf(old(companies))) in CodesOf(old(companies)) ==>
        r == Err(CodeTaken)
      ensures r.Err? ==> unchanged(this)
      ensures IsAdmin(actor.role) && NextCode(CodesOf(old(companies))) !in CodesOf(old(companies)) ==>
        && r == Ok(Company(old(nextId), NextCode(CodesOf(old(companies))), name, contactPerson, address,
                           RemoveChar(postalCode, '-'), prefecture, KeepDigits(phone), email))
        && companies == old(companies) + [r.value]
        && nextId == old(nextId) + 1
        && users == old(users) && templates == old(templates)
        && invoices == old(invoices) && details == old(details)
      ensures r.Ok? ==> IsValidCompanyCode(r.value.code)
    {
      if !IsAdmin(actor.role) {
        return Err(Forbidden);
      }
      var code := ComputeNextCode(CodesOf(companies));
      var postal := RemoveChar(postalCode, '-');
      var digits := KeepDigits(phone);
      if code in CodesOf(companies) {
        return Err(CodeTaken);
      }
      NextCodeValid(CodesOf(companies));
      var company := InsertCompany(code, name, contactPerson, address, postal, prefecture, digits, email);
      r := Ok(company);
    }

    /** `Company.objects.create` under a fresh key, for a code not in use. */
    method InsertCompany(
      code: string, name: string, contactPerson: string, address: string, postalCode: string,
      prefecture: string, phone: string, email: string)
      returns (company: Company)
      requires Valid()
      requires code !in CodesOf(companies)
      modifies this
      ensures Valid()
      ensures company == Company(old(nextId), code, name, contactPerson, address, postalCode, prefecture, phone, email)
      ensures companies == old(companies) + [company] && nextId == old(nextId) + 1
      ensures users == old(users) && templates == old(templates)
      ensures invoices == old(invoices) && details == old(details)
    {
      company := Company(nextId, code, name, contactPerson, address, postalCode, prefecture, phone, email);
      InsertCompanyValid(users, companies, templates, invoices, details, nextId, company);
      companies := companies + [company];
      nextId := nextId + 1;
    }

    /** `add_invoice_item_template`: admins only; stores the template. */
    method AddItemTemplate(actor: User, name: string, description: string) returns (r: Result<ItemTemplate>)
      requires Valid()
      modifies this
      ensures Valid()
      ensures !IsAdmin(actor.role) ==> r == Err(Forbidden) && unchanged(this)
      ensures IsAdmin(actor.role) ==>
        && r == Ok(ItemTemplate(old(nextId), name, description))
        && templates == old(templates) + [r.value]
        && nextId == old(nextId) + 1
        && users == old(users) && companies == old(companies)
        && invoices == old(invoices) && details == old(details)
    {
      if !IsAdmin(actor.role) {
        return Err(Forbidden);
      }
      var t := ItemTemplate(nextId, name, description);
      InsertTemplateValid(users, companies, templates, invoices, details, nextId, t);
      templates := templates + [t];
      nextId := nextId + 1;
      r := Ok(t);
    }

    /**
     * `add_user`: admins only; a username in use is refused, then an empty
     * one; the role text is stored as given, "general" when none is posted.
     */
    method AddUser(actor: User, username: string, role: Option<string>) returns (r: Result<User>)
      requires Valid()
      modifies this
      ensures Valid()
      ensures !IsAdmin(actor.role) ==> r == Err(Forbidden)
      ensures IsAdmin(actor.role) && HasUsername(old(users), username) ==> r == Err(UsernameTaken)
      ensures IsAdmin(actor.role) && !HasUsername(old(users), username) && username == [] ==>
        r == Err(EmptyUsername)
      ensures r.Err? ==> unchanged(this)
      ensures IsAdmin(actor.role) && !HasUsername(old(users), username) && username != [] ==>
        && r == Ok(User(old(nextId), username, RoleOf(if role.None? then "general" else role.value)))
        && (role.None? ==> r.value.role == General)
        && users == old(users) + [r.value]
        && nextId == old(nextId) + 1
        && companies == old(companies) && templates == old(templates)
        && invoices == old(invoices) && details == old(details)
    {
      if !IsAdmin(actor.role) {
        return Err(Forbidden);
      }
      if exists u :: u in users && u.username == username {
        return Err(UsernameTaken);
      }
      if username == [] {
        return Err(EmptyUsername);
      }
      var text := if role.None? then "general" else role.value;
      var u := User(nextId, username, RoleOf(text));
      InsertUserValid(users, companies, templates, invoices, details, nextId, u);
      users := users + [u];
      nextId := nextId + 1;
      r := Ok(u);
    }

    /**
     * `delete_user`: admins only; a missing user is not found, the acting
     * user cannot delete themselves; the user's invoices stay, with no
     * creator.
     */
    method DeleteUser(actor: User, userId: nat) returns (r: Result<()>)
      requires Valid()
      modifies this
      ensures Valid()
      ensures !IsAdmin(actor.role) ==> r == Err(Forbidden)
      ensures IsAdmin(actor.role) && UserById(old(users), userId).None? ==> r == Err(NotFound)
      ensures IsAdmin(actor.role) && UserById(old(users), userId).Some? && userId == actor.id ==>
        r == Err(SelfDelete)
      ensures r.Err? ==> unchanged(this)
      ensures IsAdmin(actor.role) && UserById(old(users), userId).Some? && userId != actor.id ==>
        && r == Ok(())
        && users == UsersExcept(old(users), userId)
        && invoices == ClearCreators(old(invoices), userId)
        && companies == old(companies) && templates == old(templates)
        && details == old(details) && nextId == old(nextId)
    {
      if !IsAdmin(actor.role) {
        return Err(Forbidden);
      }
      if UserById(users, userId).None? {
        return Err(NotFound);
      }
      if userId == actor.id {
        return Err(SelfDelete);
      }
      RemoveUserValid(users, companies, templates, invoices, details, nextId, userId);
      users := UsersExcept(users, userId);
      invoices := ClearCreators(invoices, userId);
      r := Ok(());
    }

    /**
     * `delete_company`: admins only; a missing company is not found;
     * otherwise the company, its invoices and their details are removed.
     */
    method DeleteCompany(actor: User, companyId: nat) returns (r: Result<()>)
      requires Valid()
      modifies this
      ensures Valid()
      ensures !IsAdmin(actor.role) ==> r == Err(Forbidden)
      ensures IsAdmin(actor.role) && CompanyById(old(companies), companyId).None? ==> r == Err(NotFound)
      ensures r.Err? ==> unchanged(this)
      ensures IsAdmin(actor.role) && CompanyById(old(companies), companyId).Some? ==>
        && r == Ok(())
        && companies == CompaniesExcept(old(companies), companyId)
        && invoices == InvoicesNotOf(old(invoices), companyId)
        && details == DetailsNotIn(old(details), InvoiceIdsOf(old(invoices), companyId))
        && users == old(users) && templates == old(templates) && nextId == old(nextId)
    {
      if !IsAdmin(actor.role) {
        return Err(Forbidden);
      }
      if CompanyById(companies, companyId).None? {
        return Err(NotFound);
      }
      RemoveCompany(companyId);
      r := Ok(());
    }

    /** `company.delete()`: the company goes, and with it its invoices and their details. */
    method RemoveCompany(companyId: nat)
      requires Valid()
      modifies this
      ensures Valid()
      ensures companies == CompaniesExcept(old(companies), companyId)
      ensures invoices == InvoicesNotOf(old(invoices), companyId)
      ensures details == DetailsNotIn(old(details), InvoiceIdsOf(old(invoices), companyId))
      ensures users == old(users) && templates == old(templates) && nextId == old(nextId)
    {
      RemoveCompanyValid(users, companies, templates, invoices, details, nextId, companyId);
      var ids := InvoiceIdsOf(invoices, companyId);
      details := DetailsNotIn(details, ids);
      invoices := InvoicesNotOf(invoices, companyId);
      companies := CompaniesExcept(companies, companyId);
    }

    // -------------------------------------------------------------------
    // Company lookup
    // -------------------------------------------------------------------

    /** `get_company_info`: the company whose code is the submitted code upper-cased. */
    function CompanyInfo(code: string): (r: Result<Company>)
      reads this
      ensures r.Ok? ==> r.value in companies && r.value.code == Upper(code)
      ensures r.Err? <==> forall c :: c in companies ==> c.code != Upper(code)
      ensures r.Err? ==> r.error == UnknownCompany
    {
      match CompanyByCode(companies, Upper(code))
      case None => Err(UnknownCompany)
      case Some(c) => Ok(c)
    }

    /** Codes are unique, so the lookup finds the one company with that code, in any letter case. */
    lemma CompanyInfoUnique(code: string, c: Company)
      requires Valid()
      requires c in companies && c.code == Upper(code)
      ensures CompanyInfo(code) == Ok(c)
      ensures CompanyInfo(Upper(code)) == Ok(c)
    {
      UpperIdempotent(code);
    }

    // -------------------------------------------------------------------
    // Invoice generation
    // -------------------------------------------------------------------

    /** `Invoice.objects.create`: a new invoice under a fresh key. */
    method CreateInvoice(number: string, companyId: nat, code: string, createdAt: DateTime, creator: nat)
      returns (inv: Invoice)
      requires Valid()
      requires number !in NumbersOf(invoices)
      requires HasCompany(companies, companyId) && HasUser(users, creator)
      requires IsCalendarTime(createdAt)
      modifies this
      ensures Valid()
      ensures inv == Invoice(old(nextId), number, companyId, code, createdAt, Some(creator))
      ensures invoices == old(invoices) + [inv] && nextId == old(nextId) + 1
      ensures users == old(users) && companies == old(companies) && templates == old(templates)
      ensures details == old(details)
    {
      inv := Invoice(nextId, number, companyId, code, createdAt, Some(creator));
      InsertInvoiceValid(users, companies, templates, invoices, details, nextId, inv);
      invoices := invoices + [inv];
      nextId := nextId + 1;
    }

    /** `InvoiceDetail.objects.create`: builds the detail, whose `save` fixes the amount, and stores it. */
    method CreateDetail(draft: Draft, invoiceId: nat) returns (rec: DetailRecord)
      modifies this
      ensures rec == NewDetail(old(nextId), invoiceId, draft)
      ensures details == old(details) + [rec] && nextId == old(nextId) + 1
      ensures users == old(users) && companies == old(companies) && templates == old(templates)
      ensures invoices == old(invoices)
    {
      var obj := new InvoiceDetail(nextId, invoiceId, draft.name, draft.quantity, draft.unitPrice,
                                   draft.suppliedAmount, draft.order);
      obj.Save();
      rec := obj.Record();
      details := details + [rec];
      nextId := nextId + 1;
    }

    /** One complete line: converts it and, when it converts, stores its detail. */
    method StoreLine(invoiceId: nat, line: LineInput) returns (rec: Option<DetailRecord>)
      modifies this
      ensures users == old(users) && companies == old(companies) && templates == old(templates)
      ensures invoices == old(invoices)
      ensures rec.None? <==> ParseLine(line).None?
      ensures rec.None? ==> details == old(details) && nextId == old(nextId)
      ensures rec.Some? ==>
        && rec.value == NewDetail(old(nextId), invoiceId, ParseLine(line).value)
        && details == old(details) + [rec.value] && nextId == old(nextId) + 1
    {
      var parsed := ParseLine(line);
      if parsed.None? {
        return None;
      }
      var d := CreateDetail(parsed.value, invoiceId);
      rec := Some(d);
    }

    /**
     * One turn of the intake loop, position `i`: `prior` and `done` are the
     * details and drafts stored so far. A skipped or converted line keeps
     * the loop going; a line that does not convert stops it.
     */
    method IntakeLine(invoiceId: nat, lines: seq<LineInput>, i: nat, done: seq<DetailRecord>,
                      ghost drafts: seq<Draft>, ghost firstId: nat, ghost prior: seq<DetailRecord>)
      returns (created: seq<DetailRecord>, stop: bool, ghost drafts': seq<Draft>)
      requires i < |lines|
      requires AllParse(KeptLines(lines[..i])) && drafts == ParsedPrefix(KeptLines(lines[..i]))
      requires done == StoredDetails(drafts, invoiceId, firstId)
      requires details == prior + done && nextId == firstId + |done|
      modifies this
      ensures users == old(users) && companies == old(companies) && templates == old(templates)
      ensures invoices == old(invoices)
      ensures details == prior + created && nextId == firstId + |created|
      ensures created == StoredDetails(drafts', invoiceId, firstId)
      ensures !stop ==> AllParse(KeptLines(lines[..i + 1])) && drafts' == ParsedPrefix(KeptLines(lines[..i + 1]))
      ensures stop ==> !AllParse(KeptLines(lines)) && drafts' == ParsedPrefix(KeptLines(lines))
    {
      IntakeStep(lines, i);
      created, stop, drafts' := done, false, drafts;
      if IsComplete(lines[i]) {
        var rec := StoreLine(invoiceId, lines[i]);
        if rec.None? {
          stop := true;
        } else {
          ghost var draft := ParseLine(lines[i]).value;
          assert |done| == |drafts|;
          assert rec.value == NewDetail(firstId + |drafts|, invoiceId, draft);
          StoredDetailsSnoc(drafts, draft, invoiceId, firstId);
          drafts' := drafts + [draft];
          created := done + [rec.value];
          assert created == StoredDetails(drafts', invoiceId, firstId);
        }
      }
    }

    /**
     * The intake loop: one detail per complete line, in order, until a line
     * does not convert; `complete` says whether every line got through.
     */
    method IntakeLines(invoiceId: nat, lines: seq<LineInput>) returns (created: seq<DetailRecord>, complete: bool)
      modifies this
      ensures users == old(users) && companies == old(companies) && templates == old(templates)
      ensures invoices == old(invoices)
      ensures complete <==> AllParse(KeptLines(lines))
      ensures created == StoredDetails(ParsedPrefix(KeptLines(lines)), invoiceId, old(nextId))
      ensures details == old(details) + created && nextId == old(nextId) + |created|
    {
      created := [];
      ghost var drafts: seq<Draft> := [];
      for i := 0 to |lines|
        invariant users == old(users) && companies == old(companies) && templates == old(templates)
        invariant invoices == old(invoices)
        invariant AllParse(KeptLines(lines[..i])) && drafts == ParsedPrefix(KeptLines(lines[..i]))
        invariant created == StoredDetails(drafts, invoiceId, old(nextId))
        invariant details == old(details) + created && nextId == old(nextId) + |created|
      {
        var stop;
        created, stop, drafts := IntakeLine(invoiceId, lines, i, created, drafts, old(nextId), old(details));
        if stop {
          return created, false;
        }
      }
      assert lines[..|lines|] == lines;
      complete := true;
    }

    /** The intake of `generate_invoice` on a consistent store keeps it consistent. */
    method StoreLines(invoiceId: nat, lines: seq<LineInput>) returns (created: seq<DetailRecord>, complete: bool)
      requires Valid()
      requires HasInvoice(invoices, invoiceId)
      modifies this
      ensures Valid()
      ensures users == old(users) && companies == old(companies) && templates == old(templates)
      ensures invoices == old(invoices)
      ensures complete <==> AllParse(KeptLines(lines))
      ensures created == StoredDetails(ParsedPrefix(KeptLines(lines)), invoiceId, old(nextId))
      ensures details == old(details) + created && nextId == old(nextId) + |created|
    {
      created, complete := IntakeLines(invoiceId, lines);
      StoredDetailsValid(users, companies, templates, invoices, old(details), old(nextId),
                         ParsedPrefix(KeptLines(lines)), invoiceId);
    }

    /**
     * `generate_invoice`: looks the company up by the upper-cased code,
     * allocates the number and stores the invoice, stores one detail per
     * complete line (stopping at the first that does not convert, with what
     * was stored kept), then fills the template when there is one.
     */
    method GenerateInvoice(
      actor: User, postedCode: string, postedNumber: string,
      names: seq<string>, quantities: seq<string>, prices: seq<string>, amounts: seq<string>,
      template: Option<Sheet>, clock: Readings)
      returns (r: Result<Generated>)
      requires Valid()
      requires actor in users
      requires CalendarReadings(clock)
      modifies this
      ensures Valid()
      ensures users == old(users) && companies == old(companies) && templates == old(templates)
      ensures CompanyByCode(old(companies), Upper(postedCode)).None? ==>
        r == Err(UnknownCompany) && unchanged(this)
      ensures CompanyByCode(old(companies), Upper(postedCode)).Some? && Strip(postedNumber) != []
              && Strip(postedNumber) in NumbersOf(old(invoices)) ==>
        r == Err(NumberTaken) && unchanged(this)
      ensures CompanyByCode(old(companies), Upper(postedCode)).Some?
              && !(Strip(postedNumber) != [] && Strip(postedNumber) in NumbersOf(old(invoices))) ==>
        var company := CompanyByCode(old(companies), Upper(postedCode)).value;
        var kept := KeptLines(Zip4(names, quantities, prices, amounts));
        var stored := StoredDetails(ParsedPrefix(kept), old(nextId), old(nextId) + 1);
        && |invoices| == |old(invoices)| + 1
        && invoices[..|old(invoices)|] == old(invoices)
        && var inv := invoices[|old(invoices)|];
        && inv == Invoice(old(nextId), inv.number, company.id, Upper(postedCode), clock.createdAt, Some(actor.id))
        && NumberAllocated(inv.number, Upper(postedCode), clock.numberDate, NumbersOf(old(invoices)), postedNumber)
        && inv.number !in NumbersOf(old(invoices))
        && details == old(details) + stored
        && nextId == old(nextId) + 1 + |stored|
        && (!AllParse(kept) ==> r == Err(Malformed))
        && (AllParse(kept) && template.None? ==> r == Err(TemplateMissing))
        && (AllParse(kept) && template.Some? ==>
              && r.Ok?
              && r.value.invoice == inv
              && r.value.details == stored
              && Populated(template.value, company, inv.number, Upper(postedCode), clock.printedAt,
                           stored, r.value.sheet)
              && r.value.fileName == InvoiceFileName(company.name, Upper(postedCode), inv.number))
    {
      var code := Upper(postedCode);
      var found := CompanyByCode(companies, code);
      if found.None? {
        return Err(UnknownCompany);
      }
      var company := found.value;
      var number := AllocateInvoiceNumber(code, clock.numberDate, NumbersOf(invoices), postedNumber);
      if number in NumbersOf(invoices) {
        return Err(NumberTaken);
      }
      var inv := CreateInvoice(number, company.id, code, clock.createdAt, actor.id);
      assert inv.id == old(nextId) && nextId == old(nextId) + 1;
      assert invoices == old(invoices) + [inv];
      assert inv in invoices;
      r := FillInvoice(inv, company, code, Zip4(names, quantities, prices, amounts), template, clock.printedAt);
    }

    /**
     * The rest of `generate_invoice` once the invoice is stored: the intake
     * of its lines, then the template, filled with the header and the
     * stored details.
     */
    method FillInvoice(inv: Invoice, company: Company, code: string, lines: seq<LineInput>,
                       template: Option<Sheet>, printedAt: DateTime)
      returns (r: Result<Generated>)
      requires Valid()
      requires HasInvoice(invoices, inv.id)
      modifies this
      ensures Valid()
      ensures users == old(users) && companies == old(companies) && templates == old(templates)
      ensures invoices == old(invoices)
      ensures var kept := KeptLines(lines);
              var stored := StoredDetails(ParsedPrefix(kept), inv.id, old(nextId));
              && details == old(details) + stored
              && nextId == old(nextId) + |stored|
              && (!AllParse(kept) ==> r == Err(Malformed))
              && (AllParse(kept) && template.None? ==> r == Err(TemplateMissing))
              && (AllParse(kept) && template.Some? ==>
                    && r.Ok?
                    && r.value.invoice == inv
                    && r.value.details == stored
                    && Populated(template.value, company, inv.number, code, printedAt, stored, r.value.sheet)
                    && r.value.fileName == InvoiceFileName(company.name, code, inv.number))
    {
      var created, complete := StoreLines(inv.id, lines);
      if !complete {
        return Err(Malformed);
      }
      if template.None? {
        return Err(TemplateMissing);
      }
      var sheet := PopulateTemplate(template.value, company, inv.number, code, printedAt, created);
      r := Ok(Generated(inv, created, sheet, InvoiceFileName(company.name, code, inv.number)));
    }

    // -------------------------------------------------------------------
    // Monthly history export
    // -------------------------------------------------------------------

    /**
     * `export_monthly_history`: converts the year and month, looks the
     * company up by the upper-cased code, fails on a year no date can have
     * (the query raises when it runs), refuses a month without invoices,
     * and lays those invoices' details out one per row. The default year and
     * the default month come from two separate clock readings, `yearNow` and
     * `monthNow`, which need not fall in the same month.
     */
    method ExportMonthlyHistory(postedCode: string, postedYear: Option<string>, postedMonth: Option<string>,
                                yearNow: DateTime, monthNow: DateTime)
      returns (r: Result<Export>)
      ensures PeriodField(postedYear, yearNow.year).None? || PeriodField(postedMonth, monthNow.month).None? ==>
        r == Err(BadPeriod)
      ensures PeriodField(postedYear, yearNow.year).Some? && PeriodField(postedMonth, monthNow.month).Some?
              && CompanyByCode(companies, Upper(postedCode)).None? ==>
        r == Err(UnknownCompany)
      ensures PeriodField(postedYear, yearNow.year).Some? && PeriodField(postedMonth, monthNow.month).Some?
              && CompanyByCode(companies, Upper(postedCode)).Some?
              && !(1 <= PeriodField(postedYear, yearNow.year).value <= MaxYear) ==>
        r == Err(YearOutOfRange)
      ensures PeriodField(postedYear, yearNow.year).Some? && PeriodField(postedMonth, monthNow.month).Some?
              && CompanyByCode(companies, Upper(postedCode)).Some?
              && 1 <= PeriodField(postedYear, yearNow.year).value <= MaxYear ==>
        var year := PeriodField(postedYear, yearNow.year).value;
        var month := PeriodField(postedMonth, monthNow.month).value;
        var company := CompanyByCode(companies, Upper(postedCode)).value;
        var selected := MonthInvoices(invoices, company.id, year, month);
        && (selected == [] <==> r == Err(NoHistory))
        && (selected != [] ==>
              && r.Ok?
              && r.value.title == MonthTitle(year, month)
              && r.value.fileName == HistoryFileName(company.name, Upper(postedCode), year, month)
              && HasHeaders(r.value.sheet)
              && HoldsRows(r.value.sheet, Flatten(selected, details))
              && (forall c {:trigger c in r.value.sheet} ::
                    c in r.value.sheet <==> InGrid(c, 1 + |Flatten(selected, details)|)))
    {
      var code := Upper(postedCode);
      var year := PeriodField(postedYear, yearNow.year);
      if year.None? {
        return Err(BadPeriod);
      }
      var month := PeriodField(postedMonth, monthNow.month);
      if month.None? {
        return Err(BadPeriod);
      }
      var found := CompanyByCode(companies, code);
      if found.None? {
        return Err(UnknownCompany);
      }
      var company := found.value;
      if !(1 <= year.value <= MaxYear) {
        return Err(YearOutOfRange);
      }
      var selected := MonthInvoices(invoices, company.id, year.value, month.value);
      if selected == [] {
        return Err(NoHistory);
      }
      var sheet := BuildHistorySheet(selected, details);
      r := Ok(Export(MonthTitle(year.value, month.value), sheet,
                     HistoryFileName(company.name, code, year.value, month.value)));
    }
  }
}
