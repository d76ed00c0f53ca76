/**
 * The integrity of the stored tables: unique primary keys, usernames,
 * company codes and invoice numbers, keys below the next key to hand out,
 * and foreign keys that point at existing rows; and that every change the
 * handlers make keeps it.
 */
module Integrity {
  import opened Strings
  import opened Models
  import opened Tables

  ghost predicate UniqueUsers(us: seq<User>) {
    forall a, b :: a in us && b in us && (a.id == b.id || a.username == b.username) ==> a == b
  }

  ghost predicate UniqueCompanies(cs: seq<Company>) {
    forall a, b :: a in cs && b in cs && (a.id == b.id || a.code == b.code) ==> a == b
  }

  ghost predicate UniqueTemplates(ts: seq<ItemTemplate>) {
    forall a, b :: a in ts && b in ts && a.id == b.id ==> a == b
  }

  ghost predicate UniqueInvoices(vs: seq<Invoice>) {
    forall a, b :: a in vs && b in vs && (a.id == b.id || a.number == b.number) ==> a == b
  }

  ghost predicate UniqueDetails(ds: seq<DetailRecord>) {
    forall a, b :: a in ds && b in ds && a.id == b.id ==> a == b
  }

  ghost predicate KeysBelow(us: seq<User>, cs: seq<Company>, ts: seq<ItemTemplate>, vs: seq<Invoice>,
                            ds: seq<DetailRecord>, n: nat) {
    && (forall u :: u in us ==> u.id < n)
    && (forall c :: c in cs ==> c.id < n)
    && (forall t :: t in ts ==> t.id < n)
    && (forall v :: v in vs ==> v.id < n)
    && (forall d :: d in ds ==> d.id < n)
  }

  ghost predicate HasUser(us: seq<User>, id: nat) {
    exists u :: u in us && u.id == id
  }

  ghost predicate HasCompany(cs: seq<Company>, id: nat) {
    exists c :: c in cs && c.id == id
  }

  ghost predicate HasInvoice(vs: seq<Invoice>, id: nat) {
    exists v :: v in vs && v.id == id
  }

  /** Every invoice's company and creator exist; every detail's invoice exists. */
  ghost predicate Linked(us: seq<User>, cs: seq<Company>, vs: seq<Invoice>, ds: seq<DetailRecord>) {
    && (forall v :: v in vs ==> HasCompany(cs, v.companyId))
    && (forall v :: v in vs && v.createdBy.Some? ==> HasUser(us, v.createdBy.value))
    && (forall d :: d in ds ==> HasInvoice(vs, d.invoiceId))
  }

  ghost predicate StoreValid(us: seq<User>, cs: seq<Company>, ts: seq<ItemTemplate>, vs: seq<Invoice>,
                             ds: seq<DetailRecord>, n: nat) {
    && UniqueUsers(us) && UniqueCompanies(cs) && UniqueTemplates(ts)
    && UniqueInvoices(vs) && UniqueDetails(ds)
    && KeysBelow(us, cs, ts, vs, ds, n)
    && Linked(us, cs, vs, ds)
    && (forall v :: v in vs ==> IsCalendarTime(v.createdAt))
  }

  lemma EmptyValid()
    ensures StoreValid([], [], [], [], [], 0)
  {
  }

  // ---------------------------------------------------------------------
  // Inserts
  // ---------------------------------------------------------------------

  lemma InsertCompanyValid(us: seq<User>, cs: seq<Company>, ts: seq<ItemTemplate>, vs: seq<Invoice>,
                           ds: seq<DetailRecord>, n: nat, c: Company)
    requires StoreValid(us, cs, ts, vs, ds, n)
    requires c.id == n
    requires c.code !in CodesOf(cs)
    ensures StoreValid(us, cs + [c], ts, vs, ds, n + 1)
  {
    assert forall x :: x in cs ==> x.code != c.code;
    forall v | v in vs
      ensures HasCompany(cs + [c], v.companyId)
    {
      var x :| x in cs && x.id == v.companyId;
      assert x in cs + [c];
    }
  }

  lemma InsertTemplateValid(us: seq<User>, cs: seq<Company>, ts: seq<ItemTemplate>, vs: seq<Invoice>,
                            ds: seq<DetailRecord>, n: nat, t: ItemTemplate)
    requires StoreValid(us, cs, ts, vs, ds, n)
    requires t.id == n
    ensures StoreValid(us, cs, ts + [t], vs, ds, n + 1)
  {
  }

  lemma InsertUserValid(us: seq<User>, cs: seq<Company>, ts: seq<ItemTemplate>, vs: seq<Invoice>,
                        ds: seq<DetailRecord>, n: nat, u: User)
    requires StoreValid(us, cs, ts, vs, ds, n)
    requires u.id == n
    requires !HasUsername(us, u.username)
    ensures StoreValid(us + [u], cs, ts, vs, ds, n + 1)
  {
    forall v | v in vs && v.createdBy.Some?
      ensures HasUser(us + [u], v.createdBy.value)
    {
      var x :| x in us && x.id == v.createdBy.value;
      assert x in us + [u];
    }
  }

  lemma InsertInvoiceValid(us: seq<User>, cs: seq<Company>, ts: seq<ItemTemplate>, vs: seq<Invoice>,
                           ds: seq<DetailRecord>, n: nat, v: Invoice)
    requires StoreValid(us, cs, ts, vs, ds, n)
    requires v.id == n
    requires v.number !in NumbersOf(vs)
    requires HasCompany(cs, v.companyId)
    requires v.createdBy.Some? ==> HasUser(us, v.createdBy.value)
    requires IsCalendarTime(v.createdAt)
    ensures StoreValid(us, cs, ts, vs + [v], ds, n + 1)
  {
    assert forall x :: x in vs ==> x.number in NumbersOf(vs);
    forall d | d in ds
      ensures HasInvoice(vs + [v], d.invoiceId)
    {
      var x :| x in vs && x.id == d.invoiceId;
      assert x in vs + [v];
    }
  }

  lemma InsertDetailValid(us: seq<User>, cs: seq<Company>, ts: seq<ItemTemplate>, vs: seq<Invoice>,
                          ds: seq<DetailRecord>, n: nat, d: DetailRecord)
    requires StoreValid(us, cs, ts, vs, ds, n)
    requires d.id == n
    requires HasInvoice(vs, d.invoiceId)
    ensures StoreValid(us, cs, ts, vs, ds + [d], n + 1)
  {
  }

  // ---------------------------------------------------------------------
  // Deletions
  // ---------------------------------------------------------------------

  /** The cascade from a company leaves no invoice without its company and no detail without its invoice. */
  lemma RemoveCompanyValid(us: seq<User>, cs: seq<Company>, ts: seq<ItemTemplate>, vs: seq<Invoice>,
                           ds: seq<DetailRecord>, n: nat, companyId: nat)
    requires StoreValid(us, cs, ts, vs, ds, n)
    ensures StoreValid(us, CompaniesExcept(cs, companyId), ts, InvoicesNotOf(vs, companyId),
                       DetailsNotIn(ds, InvoiceIdsOf(vs, companyId)), n)
  {
    var cs' := CompaniesExcept(cs, companyId);
    var vs' := InvoicesNotOf(vs, companyId);
    var ds' := DetailsNotIn(ds, InvoiceIdsOf(vs, companyId));
    RemoveCompanyLinksInvoices(cs, vs, companyId);
    RemoveCompanyLinksDetails(vs, ds, companyId);
    assert forall v :: v in vs' && v.createdBy.Some? ==> HasUser(us, v.createdBy.value);
  }

  lemma RemoveCompanyLinksInvoices(cs: seq<Company>, vs: seq<Invoice>, companyId: nat)
    requires forall v :: v in vs ==> HasCompany(cs, v.companyId)
    ensures forall v :: v in InvoicesNotOf(vs, companyId) ==> HasCompany(CompaniesExcept(cs, companyId), v.companyId)
  {
    forall v | v in InvoicesNotOf(vs, companyId)
      ensures HasCompany(CompaniesExcept(cs, companyId), v.companyId)
    {
      var c :| c in cs && c.id == v.companyId;
      assert c in CompaniesExcept(cs, companyId);
    }
  }

  lemma RemoveCompanyLinksDetails(vs: seq<Invoice>, ds: seq<DetailRecord>, companyId: nat)
    requires forall d :: d in ds ==> HasInvoice(vs, d.invoiceId)
    ensures forall d :: d in DetailsNotIn(ds, InvoiceIdsOf(vs, companyId)) ==>
      HasInvoice(InvoicesNotOf(vs, companyId), d.invoiceId)
  {
    var ids := InvoiceIdsOf(vs, companyId);
    forall d | d in DetailsNotIn(ds, ids)
      ensures HasInvoice(InvoicesNotOf(vs, companyId), d.invoiceId)
    {
      var v :| v in vs && v.id == d.invoiceId;
      assert v.companyId != companyId by {
        assert v.companyId == companyId ==> v.id in ids;
      }
      assert v in InvoicesNotOf(vs, companyId);
    }
  }

  /** Deleting a user and nulling the creator of their invoices leaves every creator in place. */
  lemma RemoveUserValid(us: seq<User>, cs: seq<Company>, ts: seq<ItemTemplate>, vs: seq<Invoice>,
                        ds: seq<DetailRecord>, n: nat, userId: nat)
    requires StoreValid(us, cs, ts, vs, ds, n)
    ensures StoreValid(UsersExcept(us, userId), cs, ts, ClearCreators(vs, userId), ds, n)
  {
    var vs' := ClearCreators(vs, userId);
    var us' := UsersExcept(us, userId);
    forall w | w in vs'
      ensures exists v :: v in vs && w == ClearCreator(v, userId)
    {
      var i :| 0 <= i < |vs'| && vs'[i] == w;
      assert vs[i] in vs;
    }
    forall v | v in vs
      ensures ClearCreator(v, userId) in vs'
    {
      var i :| 0 <= i < |vs| && vs[i] == v;
      assert vs'[i] == ClearCreator(v, userId);
    }
    forall a, b | a in vs' && b in vs' && (a.id == b.id || a.number == b.number)
      ensures a == b
    {
      var x :| x in vs && a == ClearCreator(x, userId);
      var y :| y in vs && b == ClearCreator(y, userId);
    }
    forall w | w in vs'
      ensures w.id < n && HasCompany(cs, w.companyId)
      ensures w.createdBy.Some? ==> HasUser(us', w.createdBy.value)
    {
      var v :| v in vs && w == ClearCreator(v, userId);
      if w.createdBy.Some? {
        var u :| u in us && u.id == w.createdBy.value;
        assert u in us';
      }
    }
    forall d | d in ds
      ensures HasInvoice(vs', d.invoiceId)
    {
      var v :| v in vs && v.id == d.invoiceId;
      assert ClearCreator(v, userId) in vs';
    }
  }
}
