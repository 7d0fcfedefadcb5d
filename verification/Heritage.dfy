/** What catalogue synchronisation inherits from the shop it starts with: products are adopted, never displaced. */
module Heritage {
  import opened Outcomes
  import opened Tables
  import opened WooApi
  import opened ProductSync
  import opened CatalogueFrames

  // ---------- what one template does to the products of the shop ----------

  /** No living product is p's business: only then must one be made. */
  ghost predicate NeedsProduct(s: Shelf, p: OdooProduct) {
    forall x :: x in s.woo.products ==> !Concerns(s, p, x)
  }

  /** Syncing p keeps every product, changes at most one that is p's business already, changes nobody's business
      among the products there are, and makes a product, with p's SKU, only if none was p's business. */
  ghost predicate OwnBusiness(before: Shelf, after: Shelf, p: OdooProduct) {
    && before.woo.nextProduct <= after.woo.nextProduct
    && (forall x :: x in before.woo.products ==>
          && x in after.woo.products
          && (Concerns(after, p, x) <==> Concerns(before, p, x))
          && (after.woo.products[x] == before.woo.products[x]
              || (Concerns(before, p, x) && after.woo.products[x] == Payload(p, Sku(p)))))
    && (forall x :: x in after.woo.products && x !in before.woo.products ==>
          before.woo.nextProduct <= x && Carries(after.woo, x, p) && NeedsProduct(before, p))
  }

  lemma OwnBusinessTrans(a: Shelf, b: Shelf, c: Shelf, p: OdooProduct)
    requires OwnBusiness(a, b, p) && OwnBusiness(b, c, p)
    ensures OwnBusiness(a, c, p)
  {
    forall x | x in c.woo.products && x !in a.woo.products
      ensures a.woo.nextProduct <= x && Carries(c.woo, x, p) && NeedsProduct(a, p) {
      if x !in b.woo.products {
        assert forall y :: y in a.woo.products ==> y in b.woo.products && !Concerns(b, p, y);
      }
    }
  }

  /** Steps that leave the shop alone and p linked to the same living products. */
  lemma RowsAreNoBusiness(before: Shelf, after: Shelf, p: OdooProduct)
    requires after.woo.products == before.woo.products && after.woo.nextProduct == before.woo.nextProduct
    requires forall x :: x in before.woo.products ==> (Concerns(after, p, x) <==> Concerns(before, p, x))
    ensures OwnBusiness(before, after, p)
  {
  }

  lemma CorrectedIsNoBusiness(ps: seq<OdooProduct>, s: Shelf, i: nat, p: OdooProduct)
    requires ProductOwners(ps, s.mappings.products) && IsSold(ps, p)
    requires i in s.mappings.products && Claims(p, s.mappings.products[i])
    ensures OwnBusiness(s, Corrected(s, i, p, Sku(p)), p)
  {
    var after := Corrected(s, i, p, Sku(p));
    forall j: nat, x ensures Claimed(after.mappings.products, j, p) && LinkedTo(after.mappings.products, j, x)
      <==> Claimed(s.mappings.products, j, p) && LinkedTo(s.mappings.products, j, x) {
    }
    RowsAreNoBusiness(s, after, p);
  }

  lemma DroppedIsNoBusiness(s: Shelf, i: nat, p: OdooProduct, x: Id)
    requires LinkedTo(s.mappings.products, i, x) && x !in s.woo.products
    ensures OwnBusiness(s, DropRow(s, i), p)
  {
    var after := DropRow(s, i);
    forall j: nat, y | y in s.woo.products
      ensures Claimed(after.mappings.products, j, p) && LinkedTo(after.mappings.products, j, y)
      <==> Claimed(s.mappings.products, j, p) && LinkedTo(s.mappings.products, j, y) {
    }
    RowsAreNoBusiness(s, after, p);
  }

  /** p's row, or a new one, can be linked to x. */
  ghost predicate Linkable(s: Shelf, row: Option<nat>, p: OdooProduct, x: Id) {
    && s.nextRow !in s.mappings.products
    && row == ProductRowOf(s.mappings.products, p, Sku(p))
    && (row.Some? ==>
          && row.value in s.mappings.products && Claims(p, s.mappings.products[row.value])
          && (s.mappings.products[row.value].woo.Some? ==> s.mappings.products[row.value].woo == Some(x)))
  }

  lemma AttachedBusiness(s: Shelf, woo: Woo, row: Option<nat>, p: OdooProduct, x: Id)
    requires Linkable(s, row, p, x)
    ensures var rows := AttachProduct(s.(woo := woo), row, p, Sku(p), x).mappings.products;
      forall j: nat, y :: y != x ==>
        (Claimed(rows, j, p) && LinkedTo(rows, j, y) <==> Claimed(s.mappings.products, j, p) && LinkedTo(s.mappings.products, j, y))
  {
  }

  /** Making products with p's payload, however many sends of the request take effect, and linking p's row to one. */
  lemma MakeIsOwnBusiness(s: Shelf, row: Option<nat>, p: OdooProduct, n: nat, x: Id)
    requires WooSound(s.woo) && ProductRowsSound(s.mappings.products, s.woo, s.nextRow) && Linkable(s, row, p, x)
    requires s.woo.nextProduct <= x && NeedsProduct(s, p)
    ensures var made := s.(woo := MakeProducts(s.woo, Payload(p, Sku(p)), n));
      OwnBusiness(s, made, p) && OwnBusiness(s, AttachProduct(made, row, p, Sku(p), x), p)
  {
    var made := s.(woo := MakeProducts(s.woo, Payload(p, Sku(p)), n));
    var after := AttachProduct(made, row, p, Sku(p), x);
    AttachedBusiness(s, made.woo, row, p, x);
    forall y | y in s.woo.products
      ensures Concerns(made, p, y) <==> Concerns(s, p, y)
      ensures Concerns(after, p, y) <==> Concerns(s, p, y) {
      assert Carries(made.woo, y, p) <==> Carries(s.woo, y, p);
    }
  }

  /** Writing p's payload to a product that is p's business, and linking p's row to it. */
  lemma WriteIsOwnBusiness(s: Shelf, woo: Woo, row: Option<nat>, p: OdooProduct, x: Id)
    requires Linkable(s, row, p, x)
    requires woo.products == s.woo.products[x := Payload(p, Sku(p))] && s.woo.nextProduct <= woo.nextProduct
    requires x in s.woo.products && Concerns(s, p, x)
    ensures OwnBusiness(s, s.(woo := woo), p)
    ensures OwnBusiness(s, AttachProduct(s.(woo := woo), row, p, Sku(p), x), p)
  {
    var after := AttachProduct(s.(woo := woo), row, p, Sku(p), x);
    AttachedBusiness(s, woo, row, p, x);
    assert Carries(woo, x, p);
    forall y | y in s.woo.products
      ensures Concerns(s.(woo := woo), p, y) <==> Concerns(s, p, y)
      ensures Concerns(after, p, y) <==> Concerns(s, p, y) {
      assert y != x ==> (Carries(woo, y, p) <==> Carries(s.woo, y, p));
    }
  }

  lemma LinkBySkuIsOwnBusiness(ps: seq<OdooProduct>, all: seq<OdooVariant>, durable: Mappings, s: Shelf, row: Option<nat>,
      p: OdooProduct, plan: ProductPlan)
    requires CatalogueShelf(ps, all, durable, s) && IsSold(ps, p) && Unlinked(s, row, p)
    ensures OwnBusiness(s, LinkBySku(s, row, p, Sku(p), plan).shelf, p)
  {
    RowsAreNoBusiness(s, s, p);
    if plan.lookup.None? {
      match Chosen(ProductsWithSku(s.woo, Sku(p)), plan.preferred) {
        case Some(x) => AdoptIsOwnBusiness(ps, all, durable, s, row, p, plan, x);
        case None => CreateIsOwnBusiness(ps, all, durable, s, row, p, plan);
      }
    }
  }

  lemma AdoptIsOwnBusiness(ps: seq<OdooProduct>, all: seq<OdooVariant>, durable: Mappings, s: Shelf, row: Option<nat>,
      p: OdooProduct, plan: ProductPlan, x: Id)
    requires CatalogueShelf(ps, all, durable, s) && IsSold(ps, p) && Unlinked(s, row, p) && plan.lookup.None?
    requires Chosen(ProductsWithSku(s.woo, Sku(p)), plan.preferred) == Some(x)
    ensures OwnBusiness(s, LinkBySku(s, row, p, Sku(p), plan).shelf, p)
  {
    FoundRowIsClaimed(s.mappings.products, p);
    RowsAreNoBusiness(s, s, p);
    AdoptEnds(s, row, p, plan, x);
    assert Concerns(s, p, x);
    WriteIsOwnBusiness(s, s.woo.(products := s.woo.products[x := Payload(p, Sku(p))]), row, p, x);
  }

  lemma CreateIsOwnBusiness(ps: seq<OdooProduct>, all: seq<OdooVariant>, durable: Mappings, s: Shelf, row: Option<nat>,
      p: OdooProduct, plan: ProductPlan)
    requires CatalogueShelf(ps, all, durable, s) && IsSold(ps, p) && Unlinked(s, row, p) && plan.lookup.None?
    requires Chosen(ProductsWithSku(s.woo, Sku(p)), plan.preferred) == None
    ensures OwnBusiness(s, LinkBySku(s, row, p, Sku(p), plan).shelf, p)
  {
    FoundRowIsClaimed(s.mappings.products, p);
    CreateEnds(s, row, p, plan);
    UnlinkedHasNoLink(ps, all, durable, s, row, p);
    forall x | x in s.woo.products ensures !Concerns(s, p, x) {
      assert x !in ProductsWithSku(s.woo, Sku(p));
    }
    MakeIsOwnBusiness(s, row, p, plan.create.Effects(), s.woo.nextProduct + plan.create.resent);
  }

  lemma LinkedIsOwnBusiness(ps: seq<OdooProduct>, all: seq<OdooVariant>, durable: Mappings, s: Shelf, i: nat,
      p: OdooProduct, x: Id, plan: ProductPlan)
    requires CatalogueShelf(ps, all, durable, s) && IsSold(ps, p)
    requires ProductRowOf(s.mappings.products, p, Sku(p)) == Some(i) && LinkedTo(s.mappings.products, i, x)
    requires Claims(p, s.mappings.products[i])
    ensures OwnBusiness(s, LinkProduct(s, p, Sku(p), plan).shelf, p)
  {
    var fixed := Corrected(s, i, p, Sku(p));
    CorrectKeeps(ps, all, durable, s, p, i);
    CorrectedIsNoBusiness(ps, s, i, p);
    UpdateEnds(s, i, p, plan, x);
    RowsAreNoBusiness(fixed, fixed, p);
    if x in s.woo.products {
      ClaimedRowIsFound(ps, fixed.mappings.products, i, p);
      assert Claimed(fixed.mappings.products, i, p) && LinkedTo(fixed.mappings.products, i, x);
      WriteIsOwnBusiness(fixed, s.woo.(products := s.woo.products[x := Payload(p, Sku(p))]), Some(i), p, x);
    } else {
      DropKeeps(ps, all, durable, fixed, i, x);
      DroppedIsUnlinked(ps, fixed, i, p);
      DroppedIsNoBusiness(fixed, i, p, x);
      LinkBySkuIsOwnBusiness(ps, all, durable, DropRow(fixed, i), None, p, plan);
      OwnBusinessTrans(fixed, DropRow(fixed, i), LinkBySku(DropRow(fixed, i), None, p, Sku(p), plan).shelf, p);
    }
    OwnBusinessTrans(s, fixed, LinkProduct(s, p, Sku(p), plan).shelf, p);
  }

  lemma LinkProductIsOwnBusiness(ps: seq<OdooProduct>, all: seq<OdooVariant>, durable: Mappings, s: Shelf,
      p: OdooProduct, plan: ProductPlan)
    requires CatalogueShelf(ps, all, durable, s) && IsSold(ps, p)
    ensures OwnBusiness(s, LinkProduct(s, p, Sku(p), plan).shelf, p)
  {
    var row := ProductRowOf(s.mappings.products, p, Sku(p));
    FoundRowIsClaimed(s.mappings.products, p);
    if row.None? {
      LinkBySkuIsOwnBusiness(ps, all, durable, s, None, p, plan);
    } else if s.mappings.products[row.value].woo.Some? {
      LinkedIsOwnBusiness(ps, all, durable, s, row.value, p, s.mappings.products[row.value].woo.value, plan);
    } else {
      var fixed := Corrected(s, row.value, p, Sku(p));
      CorrectKeeps(ps, all, durable, s, p, row.value);
      CorrectedIsNoBusiness(ps, s, row.value, p);
      ClaimedRowIsFound(ps, fixed.mappings.products, row.value, p);
      LinkBySkuIsOwnBusiness(ps, all, durable, fixed, row, p, plan);
      OwnBusinessTrans(s, fixed, LinkProduct(s, p, Sku(p), plan).shelf, p);
    }
  }

  /** What comes after linking, in success or failure: states of rows and variants, no products and no links. */
  lemma AfterLinking(before: Shelf, after: Shelf, p: OdooProduct)
    requires after.woo.products == before.woo.products && after.woo.nextProduct == before.woo.nextProduct
    requires after.mappings.products.Keys == before.mappings.products.Keys
    requires forall i :: i in before.mappings.products ==>
      after.mappings.products[i].(status := before.mappings.products[i].status) == before.mappings.products[i]
    ensures OwnBusiness(before, after, p)
  {
    forall j: nat, x ensures Claimed(after.mappings.products, j, p) && LinkedTo(after.mappings.products, j, x)
      <==> Claimed(before.mappings.products, j, p) && LinkedTo(before.mappings.products, j, x) {
    }
    RowsAreNoBusiness(before, after, p);
  }

  lemma VariantsAreNoBusiness(ps: seq<OdooProduct>, all: seq<OdooVariant>, durable: Mappings, s: Shelf, p: OdooProduct,
      x: Id, plans: seq<VariantSync.VariantPlan>)
    requires CatalogueShelf(ps, all, durable, s) && exists i :: SettledBy(s, p, i, x)
    ensures OwnBusiness(s, VariantSync.SyncVariants(s, VariantSync.ActiveVariants(all, p.id), x, ParentRow(s, Sku(p)), plans).shelf, p)
  {
    var i :| SettledBy(s, p, i, x);
    SyncVariantsKeepsCatalogue(ps, all, durable, s, p, x, i, plans);
    AfterLinking(s, VariantSync.SyncVariants(s, VariantSync.ActiveVariants(all, p.id), x, ParentRow(s, Sku(p)), plans).shelf, p);
  }

  lemma FailureIsNoBusiness(s: Shelf, p: OdooProduct, fault: Fault)
    ensures OwnBusiness(s, Failure(s, Sku(p), fault).shelf, p)
  {
    AfterLinking(s, Failure(s, Sku(p), fault).shelf, p);
  }

  /** Whatever happens while p is synced, it is p's own business. */
  lemma SyncIsOwnBusiness(ps: seq<OdooProduct>, all: seq<OdooVariant>, durable: Mappings, s: Shelf, p: OdooProduct,
      plan: ProductPlan)
    requires CatalogueShelf(ps, all, durable, s) && IsSold(ps, p)
    ensures OwnBusiness(s, SyncSingleProduct(s, all, p, plan).shelf, p)
  {
    var end := SyncSingleProduct(s, all, p, plan).shelf;
    if ResolvedSku(p, plan) == "" {
      RowsAreNoBusiness(s, s, p);
    } else if plan.build.Some? {
      FailureIsNoBusiness(s, p, plan.build.value);
    } else {
      var link := LinkProduct(s, p, Sku(p), plan);
      LinkProductIsOwnBusiness(ps, all, durable, s, p, plan);
      assert OwnBusiness(link.shelf, end, p) by {
        if link.got.Raised? {
          FailureIsNoBusiness(link.shelf, p, link.got.fault);
        } else if Kind(p).Simple? {
          RowsAreNoBusiness(end, end, p);
        } else if plan.fetchVariants.Some? {
          FailureIsNoBusiness(link.shelf, p, plan.fetchVariants.value);
        } else {
          LinkProductGood(ps, all, durable, s, p, plan);
          VariantsAreNoBusiness(ps, all, durable, link.shelf, p, link.got.value.woo, plan.variants);
        }
      }
      OwnBusinessTrans(s, link.shelf, end, p);
    }
  }

  // ---------- what is inherited ----------

  /** The tables that a rollback would bring back, beside the shop as it is. */
  function RolledBack(durable: Mappings, s: Shelf): Shelf {
    s.(mappings := durable)
  }

  /** Every product there was is still the business of the same templates. */
  ghost predicate SameBusiness(ps: seq<OdooProduct>, origin: Shelf, s: Shelf) {
    forall q, x :: IsSold(ps, q) && x in origin.woo.products ==> (Concerns(s, q, x) <==> Concerns(origin, q, x))
  }

  /** A new product is the business only of the template whose SKU it carries. */
  ghost predicate NewBusiness(ps: seq<OdooProduct>, origin: Shelf, s: Shelf) {
    forall q, x :: IsSold(ps, q) && x in s.woo.products && x !in origin.woo.products && Concerns(s, q, x) ==>
      Carries(s.woo, x, q)
  }

  /** A new product carries the SKU of a template that needed one. */
  ghost predicate OnlyNeeded(ps: seq<OdooProduct>, origin: Shelf, s: Shelf) {
    forall x :: x in s.woo.products && x !in origin.woo.products ==>
      exists q :: IsSold(ps, q) && Carries(s.woo, x, q) && NeedsProduct(origin, q)
  }

  /** No product is gone, and one that was nobody's business is as it was. */
  ghost predicate Preserves(ps: seq<OdooProduct>, origin: Shelf, s: Shelf) {
    && (forall x :: x in origin.woo.products ==> x in s.woo.products)
    && (forall x :: x in origin.woo.products && (forall q :: IsSold(ps, q) ==> !Concerns(origin, q, x)) ==>
          s.woo.products[x] == origin.woo.products[x])
  }

  /** What the session, and the tables a rollback would bring back, owe to the shop as it was at origin. */
  ghost predicate Inherits(ps: seq<OdooProduct>, origin: Shelf, durable: Mappings, s: Shelf) {
    && Preserves(ps, origin, s)
    && OnlyNeeded(ps, origin, s)
    && SameBusiness(ps, origin, s) && SameBusiness(ps, origin, RolledBack(durable, s))
    && NewBusiness(ps, origin, s) && NewBusiness(ps, origin, RolledBack(durable, s))
  }

  lemma InheritsRefl(ps: seq<OdooProduct>, s: Shelf)
    ensures Inherits(ps, s, s.mappings, s)
  {
  }

  /** Syncing p, seen from any template q, on the products there were. */
  lemma SyncSeenBy(ps: seq<OdooProduct>, all: seq<OdooVariant>, durable: Mappings, s: Shelf, p: OdooProduct,
      plan: ProductPlan, q: OdooProduct, x: Id)
    requires CatalogueShelf(ps, all, durable, s) && IsSold(ps, p) && IsSold(ps, q) && x in s.woo.products
    ensures var after := SyncSingleProduct(s, all, p, plan).shelf;
      && x in after.woo.products
      && (Concerns(after, q, x) <==> Concerns(s, q, x))
      && (Carries(s.woo, x, q) ==> Carries(after.woo, x, q))
      && (Carries(after.woo, x, q) ==> Concerns(s, q, x))
      && (q != p ==> (Carries(after.woo, x, q) <==> Carries(s.woo, x, q)))
  {
    var after := SyncSingleProduct(s, all, p, plan).shelf;
    SyncIsOwnBusiness(ps, all, durable, s, p, plan);
    if q != p {
      SyncIsUnseen(ps, all, durable, s, p, plan, q);
      if Concerns(s, q, x) {
        ConcernsCarryOver(s, after, q, x);
      }
      if Concerns(after, q, x) && !Carries(after.woo, x, q) {
        var i :| Claimed(after.mappings.products, i, q) && LinkedTo(after.mappings.products, i, x);
        assert Claimed(s.mappings.products, i, q) && LinkedTo(s.mappings.products, i, x);
      }
    }
  }

  /** The same of the tables a rollback would bring back: only the products changed. */
  lemma RollbackSeenBy(ps: seq<OdooProduct>, all: seq<OdooVariant>, durable: Mappings, s: Shelf, p: OdooProduct,
      plan: ProductPlan, q: OdooProduct, x: Id)
    requires CatalogueShelf(ps, all, durable, s) && IsSold(ps, p) && IsSold(ps, q) && x in s.woo.products
    ensures var after := SyncSingleProduct(s, all, p, plan).shelf;
      Concerns(RolledBack(durable, after), q, x) ==> Concerns(RolledBack(durable, s), q, x) || Concerns(s, q, x)
    ensures var after := SyncSingleProduct(s, all, p, plan).shelf;
      Concerns(RolledBack(durable, s), q, x) ==> Concerns(RolledBack(durable, after), q, x)
  {
    var after := SyncSingleProduct(s, all, p, plan).shelf;
    SyncSeenBy(ps, all, durable, s, p, plan, q, x);
    assert RolledBack(durable, after).mappings == RolledBack(durable, s).mappings;
  }

  /** A product that p's sync has just made. */
  lemma NewSeenBy(ps: seq<OdooProduct>, all: seq<OdooVariant>, durable: Mappings, s: Shelf, p: OdooProduct,
      plan: ProductPlan, q: OdooProduct, x: Id)
    requires CatalogueShelf(ps, all, durable, s) && IsSold(ps, p) && IsSold(ps, q)
    requires var after := SyncSingleProduct(s, all, p, plan).shelf;
      x in after.woo.products && x !in s.woo.products && (Concerns(after, q, x) || Concerns(RolledBack(durable, after), q, x))
    ensures Carries(SyncSingleProduct(s, all, p, plan).shelf.woo, x, q)
  {
    var after := SyncSingleProduct(s, all, p, plan).shelf;
    SyncIsOwnBusiness(ps, all, durable, s, p, plan);
    if q != p {
      SyncIsUnseen(ps, all, durable, s, p, plan, q);
      if i :| Claimed(after.mappings.products, i, q) && LinkedTo(after.mappings.products, i, x) {
        assert Claimed(s.mappings.products, i, q) && LinkedTo(s.mappings.products, i, x);
        assert Concerns(s, q, x);
      }
    }
  }

  lemma SyncInheritsOld(ps: seq<OdooProduct>, all: seq<OdooVariant>, origin: Shelf, durable: Mappings, s: Shelf,
      p: OdooProduct, plan: ProductPlan, q: OdooProduct, x: Id)
    requires CatalogueShelf(ps, all, durable, s) && Inherits(ps, origin, durable, s) && IsSold(ps, p)
    requires IsSold(ps, q) && x in origin.woo.products
    ensures var after := SyncSingleProduct(s, all, p, plan).shelf;
      && (Concerns(after, q, x) <==> Concerns(origin, q, x))
      && (Concerns(RolledBack(durable, after), q, x) <==> Concerns(origin, q, x))
  {
    SyncSeenBy(ps, all, durable, s, p, plan, q, x);
    RollbackSeenBy(ps, all, durable, s, p, plan, q, x);
  }

  lemma SyncOnlyNeeded(ps: seq<OdooProduct>, all: seq<OdooVariant>, origin: Shelf, durable: Mappings, s: Shelf,
      p: OdooProduct, plan: ProductPlan, x: Id)
    requires CatalogueShelf(ps, all, durable, s) && Inherits(ps, origin, durable, s) && IsSold(ps, p)
    requires x in SyncSingleProduct(s, all, p, plan).shelf.woo.products && x !in origin.woo.products
    ensures exists q :: IsSold(ps, q) && Carries(SyncSingleProduct(s, all, p, plan).shelf.woo, x, q) && NeedsProduct(origin, q)
  {
    SyncIsOwnBusiness(ps, all, durable, s, p, plan);
    if x in s.woo.products {
      var q :| IsSold(ps, q) && Carries(s.woo, x, q) && NeedsProduct(origin, q);
      SyncSeenBy(ps, all, durable, s, p, plan, q, x);
    } else {
      assert NeedsProduct(origin, p);
    }
  }

  lemma SyncNewBusiness(ps: seq<OdooProduct>, all: seq<OdooVariant>, origin: Shelf, durable: Mappings, s: Shelf,
      p: OdooProduct, plan: ProductPlan, r: OdooProduct, x: Id)
    requires CatalogueShelf(ps, all, durable, s) && Inherits(ps, origin, durable, s) && IsSold(ps, p) && IsSold(ps, r)
    requires var after := SyncSingleProduct(s, all, p, plan).shelf;
      && x in after.woo.products && x !in origin.woo.products
      && (Concerns(after, r, x) || Concerns(RolledBack(durable, after), r, x))
    ensures Carries(SyncSingleProduct(s, all, p, plan).shelf.woo, x, r)
  {
    if x in s.woo.products {
      SyncSeenBy(ps, all, durable, s, p, plan, r, x);
      RollbackSeenBy(ps, all, durable, s, p, plan, r, x);
    } else {
      NewSeenBy(ps, all, durable, s, p, plan, r, x);
    }
  }

  lemma SyncPreserves(ps: seq<OdooProduct>, all: seq<OdooVariant>, origin: Shelf, durable: Mappings, s: Shelf,
      p: OdooProduct, plan: ProductPlan)
    requires CatalogueShelf(ps, all, durable, s) && Inherits(ps, origin, durable, s) && IsSold(ps, p)
    ensures Preserves(ps, origin, SyncSingleProduct(s, all, p, plan).shelf)
  {
    SyncIsOwnBusiness(ps, all, durable, s, p, plan);
  }

  /** Whatever fails, what the catalogue inherited stays inherited. */
  lemma SyncInherits(ps: seq<OdooProduct>, all: seq<OdooVariant>, origin: Shelf, durable: Mappings, s: Shelf,
      p: OdooProduct, plan: ProductPlan)
    requires CatalogueShelf(ps, all, durable, s) && Inherits(ps, origin, durable, s) && p in ps
    ensures Inherits(ps, origin, durable, SyncSingleProduct(s, all, p, plan).shelf)
  {
    if Sku(p) != "" {
      var after := SyncSingleProduct(s, all, p, plan).shelf;
      SyncPreserves(ps, all, origin, durable, s, p, plan);
      forall q, x | IsSold(ps, q) && x in origin.woo.products
        ensures Concerns(after, q, x) <==> Concerns(origin, q, x)
        ensures Concerns(RolledBack(durable, after), q, x) <==> Concerns(origin, q, x) {
        SyncInheritsOld(ps, all, origin, durable, s, p, plan, q, x);
      }
      forall x | x in after.woo.products && x !in origin.woo.products
        ensures exists q :: IsSold(ps, q) && Carries(after.woo, x, q) && NeedsProduct(origin, q) {
        SyncOnlyNeeded(ps, all, origin, durable, s, p, plan, x);
      }
      forall r, x | IsSold(ps, r) && x in after.woo.products && x !in origin.woo.products
        && (Concerns(after, r, x) || Concerns(RolledBack(durable, after), r, x)) ensures Carries(after.woo, x, r) {
        SyncNewBusiness(ps, all, origin, durable, s, p, plan, r, x);
      }
    }
  }

  // ---------- what a settled catalogue has inherited ----------

  /** No template has two living products as its business. */
  ghost predicate Unrivalled(ps: seq<OdooProduct>, s: Shelf) {
    forall p, x, y ::
      && IsSold(ps, p) && x in s.woo.products && y in s.woo.products && Concerns(s, p, x) && Concerns(s, p, y)
      ==> x == y
  }

  /** How many templates need a new product: those whose SKU is missing in the shop and whose link is dead. */
  ghost function Needed(start: Shelf, qs: seq<OdooProduct>): nat {
    if qs == [] then 0
    else
      var p := qs[|qs| - 1];
      Needed(start, qs[..|qs| - 1]) + if Sku(p) != "" && NeedsProduct(start, p) then 1 else 0
  }

  lemma DifferentProductsCarry(ps: seq<OdooProduct>, woo: Woo, p: OdooProduct, q: OdooProduct, x: Id)
    requires DistinctProducts(ps) && IsSold(ps, p) && IsSold(ps, q) && Carries(woo, x, p) && Carries(woo, x, q)
    ensures p == q
  {
    if p != q {
      DifferentProducts(ps, p, q);
    }
  }

  ghost predicate AllLinked(ps: seq<OdooProduct>, s: Shelf) {
    forall p :: IsSold(ps, p) ==> exists i, x :: SettledBy(s, p, i, x)
  }

  /** p ends linked to a product that was its business, or to a new one if it needed one. */
  ghost predicate LinkedAsBefore(start: Shelf, end: Shelf, p: OdooProduct) {
    forall i, x :: SettledBy(end, p, i, x) ==>
      if NeedsProduct(start, p) then x !in start.woo.products else x in start.woo.products && Concerns(start, p, x)
  }

  /** If no template had two products, each ends linked to the very one it had. */
  ghost predicate LinkedToTheOne(ps: seq<OdooProduct>, start: Shelf, end: Shelf) {
    forall p, y :: IsSold(ps, p) && y in start.woo.products && Concerns(start, p, y) ==>
      exists i :: SettledBy(end, p, i, y)
  }

  /** end keeps every product of start, leaves alone those that were no template's business, and links each template
      to what was its business, else to a new product. */
  ghost predicate Adopts(ps: seq<OdooProduct>, start: Shelf, end: Shelf) {
    && AllLinked(ps, end)
    && (forall x :: x in start.woo.products ==> x in end.woo.products)
    && (forall p :: IsSold(ps, p) ==> LinkedAsBefore(start, end, p))
    && (Unrivalled(ps, start) ==> LinkedToTheOne(ps, start, end))
    && (forall x :: x in start.woo.products && (forall q :: IsSold(ps, q) ==> !Concerns(start, q, x)) ==>
          end.woo.products[x] == start.woo.products[x])
  }

  /** However a settled state was reached, it has adopted the products there were. */
  lemma SettledHeritage(ps: seq<OdooProduct>, all: seq<OdooVariant>, origin: Shelf, durable: Mappings, s: Shelf)
    requires CatalogueShelf(ps, all, durable, s) && Inherits(ps, origin, durable, s) && AllLinked(ps, s)
    ensures Adopts(ps, origin, s)
  {
    forall p | IsSold(ps, p) ensures LinkedAsBefore(origin, s, p) {
      SettledAsBefore(ps, origin, s, p);
    }
    forall p, y | Unrivalled(ps, origin) && IsSold(ps, p) && y in origin.woo.products && Concerns(origin, p, y)
      ensures exists i :: SettledBy(s, p, i, y) {
      var i, x :| SettledBy(s, p, i, x);
      assert LinkedAsBefore(origin, s, p);
      assert x == y;
    }
  }

  lemma SettledAsBefore(ps: seq<OdooProduct>, origin: Shelf, s: Shelf, p: OdooProduct)
    requires DistinctProducts(ps) && OnlyNeeded(ps, origin, s) && SameBusiness(ps, origin, s) && IsSold(ps, p)
    ensures LinkedAsBefore(origin, s, p)
  {
    forall i, x | SettledBy(s, p, i, x)
      ensures if NeedsProduct(origin, p) then x !in origin.woo.products else x in origin.woo.products && Concerns(origin, p, x) {
      assert Carries(s.woo, x, p) && Concerns(s, p, x);
      if x !in origin.woo.products {
        var q :| IsSold(ps, q) && Carries(s.woo, x, q) && NeedsProduct(origin, q);
        DifferentProductsCarry(ps, s.woo, p, q, x);
      }
    }
  }

  /** The same linkage of SKUs to products, up to the ids of the products that were not there at the start. */
  ghost predicate SameLinkage(ps: seq<OdooProduct>, start: Shelf, a: Shelf, b: Shelf) {
    && AllLinked(ps, a) && AllLinked(ps, b)
    && (forall p, i, x, j, y :: IsSold(ps, p) && SettledBy(a, p, i, x) && SettledBy(b, p, j, y) ==>
          && (x in start.woo.products <==> y in start.woo.products)
          && (x in start.woo.products ==> x == y)
          && a.woo.products[x] == b.woo.products[y])
  }

  lemma AdoptersAgree(ps: seq<OdooProduct>, start: Shelf, a: Shelf, b: Shelf)
    requires Adopts(ps, start, a) && Adopts(ps, start, b) && Unrivalled(ps, start)
    ensures SameLinkage(ps, start, a, b)
  {
    forall p, i, x, j, y | IsSold(ps, p) && SettledBy(a, p, i, x) && SettledBy(b, p, j, y)
      ensures (x in start.woo.products <==> y in start.woo.products) && (x in start.woo.products ==> x == y) {
      assert LinkedAsBefore(start, a, p) && LinkedAsBefore(start, b, p);
    }
  }
}
