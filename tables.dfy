/**
 * The stored tables as sequences of records: lookups by key, the listings
 * in their declared order, and the row changes a deletion makes (the
 * cascade from a company to its invoices and their details, and the
 * nulling of an invoice's creator when the user is deleted).
 */
module Tables {
  import opened Strings
  import opened Sorting
  import opened Models

  // ---------------------------------------------------------------------
  // Lookups
  // ---------------------------------------------------------------------

  /** `Company.objects.get(company_code=code)`. */
  function CompanyByCode(cs: seq<Company>, code: string): (r: Option<Company>)
    ensures r.Some? ==> r.value in cs && r.value.code == code
    ensures r.None? <==> forall c :: c in cs ==> c.code != code
  {
    if cs == [] then None
    else if cs[0].code == code then Some(cs[0])
    else CompanyByCode(cs[1..], code)
  }

  /** `get_object_or_404(Company, pk=id)`. */
  function CompanyById(cs: seq<Company>, id: nat): (r: Option<Company>)
    ensures r.Some? ==> r.value in cs && r.value.id == id
    ensures r.None? <==> forall c :: c in cs ==> c.id != id
  {
    if cs == [] then None
    else if cs[0].id == id then Some(cs[0])
    else CompanyById(cs[1..], id)
  }

  /** `get_object_or_404(CustomUser, pk=id)`. */
  function UserById(us: seq<User>, id: nat): (r: Option<User>)
    ensures r.Some? ==> r.value in us && r.value.id == id
    ensures r.None? <==> forall u :: u in us ==> u.id != id
  {
    if us == [] then None
    else if us[0].id == id then Some(us[0])
    else UserById(us[1..], id)
  }

  /** The company codes in store order: a code is listed exactly when some company has it. */
  function CodesOf(cs: seq<Company>): (codes: seq<string>)
    ensures forall x :: x in codes <==> exists c :: c in cs && c.code == x
  {
    if cs == [] then [] else [cs[0].code] + CodesOf(cs[1..])
  }

  function NumbersOf(invs: seq<Invoice>): set<string> {
    set v | v in invs :: v.number
  }

  predicate HasUsername(us: seq<User>, name: string) {
    exists u :: u in us && u.username == name
  }

  // ---------------------------------------------------------------------
  // Listings
  // ---------------------------------------------------------------------

  /** `Company.objects.all()`: by ascending code. */
  function CompanyListing(cs: seq<Company>): seq<Company> {
    SortBy(cs, CodeLe)
  }

  /** `InvoiceItemTemplate.objects.all()`: by ascending name. */
  function TemplateListing(ts: seq<ItemTemplate>): seq<ItemTemplate> {
    SortBy(ts, NameLe)
  }

  /** `Invoice.objects.all()`: newest first. */
  function InvoiceListing(invs: seq<Invoice>): seq<Invoice> {
    SortBy(invs, NewestFirst)
  }

  /** Each listing holds the same records as the table, in its declared order. */
  lemma ListingsOrdered(cs: seq<Company>, ts: seq<ItemTemplate>, invs: seq<Invoice>)
    ensures multiset(CompanyListing(cs)) == multiset(cs) && SortedBy(CompanyListing(cs), CodeLe)
    ensures multiset(TemplateListing(ts)) == multiset(ts) && SortedBy(TemplateListing(ts), NameLe)
    ensures multiset(InvoiceListing(invs)) == multiset(invs) && SortedBy(InvoiceListing(invs), NewestFirst)
  {
    CodeOrder();
    NameOrder();
    NewestFirstOrder();
    SortBySorted(cs, CodeLe);
    SortBySorted(ts, NameLe);
    SortBySorted(invs, NewestFirst);
    SortByPermutation(cs, CodeLe);
    SortByPermutation(ts, NameLe);
    SortByPermutation(invs, NewestFirst);
  }

  // ---------------------------------------------------------------------
  // Deletions
  // ---------------------------------------------------------------------

  /** The companies other than `id`, in store order. */
  function CompaniesExcept(cs: seq<Company>, id: nat): (r: seq<Company>)
    ensures forall c :: c in r <==> c in cs && c.id != id
  {
    if cs == [] then []
    else (if cs[0].id == id then [] else [cs[0]]) + CompaniesExcept(cs[1..], id)
  }

  /** The users other than `id`, in store order. */
  function UsersExcept(us: seq<User>, id: nat): (r: seq<User>)
    ensures forall u :: u in r <==> u in us && u.id != id
  {
    if us == [] then []
    else (if us[0].id == id then [] else [us[0]]) + UsersExcept(us[1..], id)
  }

  /** `on_delete=CASCADE` from `Invoice.company`: the invoices of other companies. */
  function InvoicesNotOf(invs: seq<Invoice>, companyId: nat): (r: seq<Invoice>)
    ensures forall v :: v in r <==> v in invs && v.companyId != companyId
  {
    if invs == [] then []
    else (if invs[0].companyId == companyId then [] else [invs[0]]) + InvoicesNotOf(invs[1..], companyId)
  }

  /** The ids of a company's invoices. */
  function InvoiceIdsOf(invs: seq<Invoice>, companyId: nat): set<nat> {
    set v | v in invs && v.companyId == companyId :: v.id
  }

  /** `on_delete=CASCADE` from `InvoiceDetail.invoice`: the details of the invoices that remain. */
  function DetailsNotIn(ds: seq<DetailRecord>, ids: set<nat>): (r: seq<DetailRecord>)
    ensures forall d :: d in r <==> d in ds && d.invoiceId !in ids
  {
    if ds == [] then []
    else (if ds[0].invoiceId in ids then [] else [ds[0]]) + DetailsNotIn(ds[1..], ids)
  }

  /** `on_delete=SET_NULL` from `Invoice.created_by`. */
  function ClearCreator(v: Invoice, userId: nat): (w: Invoice)
    ensures w.createdBy == (if v.createdBy == Some(userId) then None else v.createdBy)
    ensures w.(createdBy := v.createdBy) == v
  {
    if v.createdBy == Some(userId) then v.(createdBy := None) else v
  }

  function ClearCreators(invs: seq<Invoice>, userId: nat): seq<Invoice> {
    seq(|invs|, i requires 0 <= i < |invs| => ClearCreator(invs[i], userId))
  }

  /**
   * Deleting a company removes exactly its invoices and those invoices'
   * details: every other invoice and detail stays.
   */
  lemma CascadeExact(invs: seq<Invoice>, ds: seq<DetailRecord>, companyId: nat)
    ensures var kept := InvoicesNotOf(invs, companyId);
            var keptDetails := DetailsNotIn(ds, InvoiceIdsOf(invs, companyId));
            && (forall v :: v in invs ==> (v in kept <==> v.companyId != companyId))
            && (forall d :: d in ds ==>
                  (d in keptDetails <==> !exists v :: v in invs && v.companyId == companyId && v.id == d.invoiceId))
            && (forall d :: d in keptDetails ==> forall v :: v in invs && v.id == d.invoiceId ==> v in kept)
  {
    var ids := InvoiceIdsOf(invs, companyId);
    forall d | d in ds
      ensures d.invoiceId in ids <==> exists v :: v in invs && v.companyId == companyId && v.id == d.invoiceId
    {
      if d.invoiceId in ids {
        var v :| v in invs && v.companyId == companyId && v.id == d.invoiceId;
      }
    }
  }

  /** Deleting a user removes no invoice: every invoice keeps its place and all fields but the creator. */
  lemma SetNullKeepsInvoices(invs: seq<Invoice>, userId: nat)
    ensures |ClearCreators(invs, userId)| == |invs|
    ensures forall i :: 0 <= i < |invs| ==>
      var w := ClearCreators(invs, userId)[i];
      && w.id == invs[i].id && w.number == invs[i].number && w.companyId == invs[i].companyId
      && w.customerId == invs[i].customerId && w.createdAt == invs[i].createdAt
      && (w.createdBy == None <==> invs[i].createdBy == None || invs[i].createdBy == Some(userId))
    ensures forall v :: v in ClearCreators(invs, userId) ==> v.createdBy != Some(userId)
  {
    forall v | v in ClearCreators(invs, userId)
      ensures v.createdBy != Some(userId)
    {
      var i :| 0 <= i < |invs| && ClearCreators(invs, userId)[i] == v;
    }
  }
}
