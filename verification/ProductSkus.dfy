/** When no two products of the shop share the SKU of a template: always, but for a creation sent twice. */
module ProductSkus {
  import opened Outcomes
  import opened Tables
  import opened WooApi
  import opened ProductSync
  import opened CatalogueFrames
  import opened Heritage
  import CataloguePass

  /** Linking p asks the shop to make a product: p's row, if there is one, has no link, or one that is answered as
      missing, and the lookup finds nothing. */
  ghost predicate Creates(s: Shelf, p: OdooProduct, plan: ProductPlan) {
    && ResolvedSku(p, plan) != "" && plan.build.None? && plan.lookup.None?
    && ProductsWithSku(s.woo, Sku(p)) == {}
    && var row := ProductRowOf(s.mappings.products, p, Sku(p));
       row.Some? && s.mappings.products[row.value].woo.Some? ==>
         UpdateProduct(s.woo, s.mappings.products[row.value].woo.value, Payload(p, Sku(p)), plan.update).Missing?
  }

  /** The guard of the one branch that can make a second product: the creation was sent again after it took effect. */
  ghost predicate Duplicates(s: Shelf, p: OdooProduct, plan: ProductPlan) {
    Creates(s, p, plan) && 2 <= plan.create.Effects()
  }

  /** How many products too many are made. */
  ghost function Surplus(s: Shelf, p: OdooProduct, plan: ProductPlan): nat {
    if Duplicates(s, p, plan) then plan.create.Effects() - 1 else 0
  }

  // ---------- one template ----------

  function MadeIf(made: bool, woo: Woo, plan: ProductPlan): set<Id> {
    if made then NextIds(woo.nextProduct, plan.create.Effects()) else {}
  }

  lemma MadeByLinkBySku(s: Shelf, row: Option<nat>, p: OdooProduct, plan: ProductPlan)
    requires row.Some? ==> row.value in s.mappings.products
    ensures LinkBySku(s, row, p, Sku(p), plan).shelf.woo.products.Keys
      == s.woo.products.Keys + MadeIf(plan.lookup.None? && ProductsWithSku(s.woo, Sku(p)) == {}, s.woo, plan)
  {
    if plan.lookup.None? {
      match Chosen(ProductsWithSku(s.woo, Sku(p)), plan.preferred) {
        case Some(x) => AdoptEnds(s, row, p, plan, x);
        case None =>
          CreateEnds(s, row, p, plan);
          MadeKeys(s.woo, Payload(p, Sku(p)), plan.create.Effects());
      }
    }
  }

  lemma MadeKeys(woo: Woo, product: WooProduct, n: nat)
    ensures MakeProducts(woo, product, n).products.Keys == woo.products.Keys + NextIds(woo.nextProduct, n)
  {
  }

  lemma MadeByRelink(s: Shelf, p: OdooProduct, plan: ProductPlan, i: nat, x: Id)
    requires ResolvedSku(p, plan) != "" && plan.build.None?
    requires ProductRowOf(s.mappings.products, p, Sku(p)) == Some(i) && LinkedTo(s.mappings.products, i, x)
    ensures LinkProduct(s, p, Sku(p), plan).shelf.woo.products.Keys == s.woo.products.Keys + MadeIf(Creates(s, p, plan), s.woo, plan)
  {
    UpdateEnds(s, i, p, plan, x);
    if UpdateProduct(s.woo, x, Payload(p, Sku(p)), plan.update).Missing? {
      MadeByLinkBySku(DropRow(Corrected(s, i, p, Sku(p)), i), None, p, plan);
    }
  }

  lemma MadeByLink(s: Shelf, p: OdooProduct, plan: ProductPlan)
    requires ResolvedSku(p, plan) != "" && plan.build.None?
    ensures LinkProduct(s, p, Sku(p), plan).shelf.woo.products.Keys == s.woo.products.Keys + MadeIf(Creates(s, p, plan), s.woo, plan)
  {
    FoundRowIsClaimed(s.mappings.products, p);
    match ProductRowOf(s.mappings.products, p, Sku(p)) {
      case None =>
        MadeByLinkBySku(s, None, p, plan);
      case Some(i) =>
        if s.mappings.products[i].woo.None? {
          MadeByLinkBySku(Corrected(s, i, p, Sku(p)), Some(i), p, plan);
        } else {
          MadeByRelink(s, p, plan, i, s.mappings.products[i].woo.value);
        }
    }
  }

  lemma SyncedProducts(s: Shelf, all: seq<OdooVariant>, p: OdooProduct, plan: ProductPlan)
    requires ResolvedSku(p, plan) != "" && plan.build.None?
    ensures var link := LinkProduct(s, p, Sku(p), plan);
      SyncSingleProduct(s, all, p, plan).shelf.woo.products
      == if link.got.Done? && Kind(p).Variable? && plan.fetchVariants.None?
         then VariantSync.SyncVariants(link.shelf, VariantSync.ActiveVariants(all, p.id), link.got.value.woo, ParentRow(link.shelf, Sku(p)),
                plan.variants).shelf.woo.products
         else link.shelf.woo.products
  {
  }

  /** Exactly the products whose creation took effect are new, however often it was sent. */
  lemma MadeBySync(ps: seq<OdooProduct>, all: seq<OdooVariant>, durable: Mappings, s: Shelf, p: OdooProduct,
      plan: ProductPlan)
    requires CatalogueShelf(ps, all, durable, s) && IsSold(ps, p)
    ensures SyncSingleProduct(s, all, p, plan).shelf.woo.products.Keys == s.woo.products.Keys + MadeIf(Creates(s, p, plan), s.woo, plan)
  {
    if ResolvedSku(p, plan) != "" && plan.build.None? {
      var link := LinkProduct(s, p, Sku(p), plan);
      SyncedProducts(s, all, p, plan);
      MadeByLink(s, p, plan);
      if link.got.Done? && Kind(p).Variable? && plan.fetchVariants.None? {
        LinkProductGood(ps, all, durable, s, p, plan);
        VariantsMakeNoProducts(ps, all, durable, link.shelf, p, link.got.value.woo, plan.variants);
      }
    }
  }

  lemma VariantsMakeNoProducts(ps: seq<OdooProduct>, all: seq<OdooVariant>, durable: Mappings, s: Shelf, p: OdooProduct,
      x: Id, plans: seq<VariantSync.VariantPlan>)
    requires CatalogueShelf(ps, all, durable, s) && exists i :: SettledBy(s, p, i, x)
    ensures VariantSync.SyncVariants(s, VariantSync.ActiveVariants(all, p.id), x, ParentRow(s, Sku(p)), plans).shelf.woo.products == s.woo.products
  {
    var i :| SettledBy(s, p, i, x);
    SyncVariantsKeepsCatalogue(ps, all, durable, s, p, x, i, plans);
  }

  lemma TwoOfOneSku(ps: seq<OdooProduct>, woo: Woo, p: OdooProduct, x: Id, y: Id)
    requires IsSold(ps, p) && Carries(woo, x, p) && Carries(woo, y, p) && x != y
    ensures !UniqueSkus(ps, woo)
  {
  }

  lemma UnrivalledIsUnique(ps: seq<OdooProduct>, s: Shelf)
    requires Unrivalled(ps, s)
    ensures UniqueSkus(ps, s.woo)
  {
    forall p, x, y | IsSold(ps, p) && Carries(s.woo, x, p) && Carries(s.woo, y, p) ensures x == y {
      assert Concerns(s, p, x) && Concerns(s, p, y);
    }
  }

  lemma NewCarriers(s: Shelf, after: Shelf, p: OdooProduct, made: set<Id>)
    requires OwnBusiness(s, after, p) && made != {} && made !! s.woo.products.Keys
    requires after.woo.products.Keys == s.woo.products.Keys + made
    ensures ProductsWithSku(after.woo, Sku(p)) == made
  {
    var y := Member(made);
    assert y in after.woo.products && y !in s.woo.products && NeedsProduct(s, p);
    forall x ensures x in ProductsWithSku(after.woo, Sku(p)) <==> x in made {
      if x in made {
        assert x in after.woo.products && x !in s.woo.products;
      } else if Carries(after.woo, x, p) {
        assert Concerns(after, p, x);
      }
    }
  }

  /** In that branch every send that took effect is a product with p's SKU, where there was none. */
  lemma DuplicatesAreMade(ps: seq<OdooProduct>, all: seq<OdooVariant>, durable: Mappings, s: Shelf, p: OdooProduct,
      plan: ProductPlan)
    requires CatalogueShelf(ps, all, durable, s) && p in ps && Duplicates(s, p, plan)
    ensures var after := SyncSingleProduct(s, all, p, plan).shelf.woo;
      ProductsWithSku(after, Sku(p)) == NextIds(s.woo.nextProduct, plan.create.Effects()) && !UniqueSkus(ps, after)
  {
    var after := SyncSingleProduct(s, all, p, plan).shelf;
    MadeBySync(ps, all, durable, s, p, plan);
    SyncIsOwnBusiness(ps, all, durable, s, p, plan);
    var made := NextIds(s.woo.nextProduct, plan.create.Effects());
    assert s.woo.nextProduct in made && made !! s.woo.products.Keys;
    NewCarriers(s, after, p, made);
    TwoOfOneSku(ps, after.woo, p, s.woo.nextProduct, s.woo.nextProduct + 1);
  }

  lemma NewIsAlone(ps: seq<OdooProduct>, all: seq<OdooVariant>, durable: Mappings, s: Shelf, p: OdooProduct,
      plan: ProductPlan, q: OdooProduct, x: Id, y: Id)
    requires CatalogueShelf(ps, all, durable, s) && IsSold(ps, p) && IsSold(ps, q) && !Duplicates(s, p, plan)
    requires var after := SyncSingleProduct(s, all, p, plan).shelf;
      && x in after.woo.products && y in after.woo.products && Concerns(after, q, x) && Concerns(after, q, y)
      && x !in s.woo.products
    ensures x == y
  {
    var after := SyncSingleProduct(s, all, p, plan).shelf;
    MadeBySync(ps, all, durable, s, p, plan);
    SyncIsOwnBusiness(ps, all, durable, s, p, plan);
    NewSeenBy(ps, all, durable, s, p, plan, q, x);
    DifferentProductsCarry(ps, after.woo, p, q, x);
    assert NeedsProduct(s, p);
  }

  /** Whatever fails while p is synced, sends and answers of the creation included: products stay unrivalled, and
      their SKUs unique, if and only if the creation was not sent again after it took effect. */
  lemma UniqueUnlessDuplicated(ps: seq<OdooProduct>, all: seq<OdooVariant>, durable: Mappings, s: Shelf, p: OdooProduct,
      plan: ProductPlan)
    requires CatalogueShelf(ps, all, durable, s) && p in ps && Unrivalled(ps, s)
    ensures var after := SyncSingleProduct(s, all, p, plan).shelf;
      && (UniqueSkus(ps, after.woo) <==> !Duplicates(s, p, plan))
      && (Unrivalled(ps, after) <==> !Duplicates(s, p, plan))
  {
    var after := SyncSingleProduct(s, all, p, plan).shelf;
    if Duplicates(s, p, plan) {
      DuplicatesAreMade(ps, all, durable, s, p, plan);
      if Unrivalled(ps, after) {
        UnrivalledIsUnique(ps, after);
      }
    } else {
      forall q, x, y | Sku(p) != "" && IsSold(ps, q) && x in after.woo.products && y in after.woo.products
        && Concerns(after, q, x) && Concerns(after, q, y) ensures x == y {
        if x !in s.woo.products {
          NewIsAlone(ps, all, durable, s, p, plan, q, x, y);
        } else if y !in s.woo.products {
          NewIsAlone(ps, all, durable, s, p, plan, q, y, x);
        } else {
          SyncSeenBy(ps, all, durable, s, p, plan, q, x);
          SyncSeenBy(ps, all, durable, s, p, plan, q, y);
        }
      }
      UnrivalledIsUnique(ps, after);
    }
  }

  // ---------- transactions and the shop ----------

  /** The tables that a rollback brings back are linked to no other living product. */
  lemma RollbackKeepsUnrivalled(ps: seq<OdooProduct>, all: seq<OdooVariant>, durable: Mappings, s: Shelf)
    requires CatalogueShelf(ps, all, durable, s) && Unrivalled(ps, s)
    ensures Unrivalled(ps, RolledBack(durable, s))
  {
    forall q, x | IsSold(ps, q) && x in s.woo.products && Concerns(RolledBack(durable, s), q, x) ensures Concerns(s, q, x) {
      if !Carries(s.woo, x, q) {
        var i :| Claimed(durable.products, i, q) && LinkedTo(durable.products, i, x);
        assert LinkedTo(s.mappings.products, i, x) && Claimed(s.mappings.products, i, q);
      }
    }
  }

  lemma DeletionKeepsUnrivalled(ps: seq<OdooProduct>, s: Shelf, gone: Id)
    requires Unrivalled(ps, s)
    ensures Unrivalled(ps, s.(woo := DeleteProduct(s.woo, gone)))
  {
    var after := s.(woo := DeleteProduct(s.woo, gone));
    forall q, x | x in after.woo.products && Concerns(after, q, x) ensures x in s.woo.products && Concerns(s, q, x) {
    }
  }

  // ---------- passes ----------

  /** How many products too many a pass makes. */
  ghost function PassSurplus(s: Shelf, all: seq<OdooVariant>, qs: seq<OdooProduct>, plans: seq<ProductPlan>): nat {
    if qs == [] then 0
    else
      var n := |qs| - 1;
      PassSurplus(s, all, qs[..n], plans)
      + Surplus(CataloguePass.Pass(s, all, qs[..n], plans).shelf, qs[n], CataloguePass.PlanOf(plans, n))
  }

  lemma {:induction false} PassKeepsUnrivalled(ps: seq<OdooProduct>, all: seq<OdooVariant>, durable: Mappings, s: Shelf,
      qs: seq<OdooProduct>, plans: seq<ProductPlan>)
    requires CatalogueSound(ps, all, durable, s) && Unrivalled(ps, s) && forall q :: q in qs ==> q in ps
    requires PassSurplus(s, all, qs, plans) == 0
    ensures Unrivalled(ps, CataloguePass.Pass(s, all, qs, plans).shelf)
  {
    if qs != [] {
      var n := |qs| - 1;
      var before := CataloguePass.Pass(s, all, qs[..n], plans).shelf;
      PassKeepsUnrivalled(ps, all, durable, s, qs[..n], plans);
      CataloguePass.PassKeepsSound(ps, all, durable, s, qs[..n], plans);
      UniqueUnlessDuplicated(ps, all, durable, before, qs[n], CataloguePass.PlanOf(plans, n));
      CataloguePass.PassLast(s, all, qs, plans);
    }
  }

  /** A pass without failures makes none too many. */
  lemma {:induction false} SmoothPassHasNoSurplus(s: Shelf, all: seq<OdooVariant>, qs: seq<OdooProduct>,
      plans: seq<ProductPlan>)
    requires CataloguePass.AllSmooth(plans)
    ensures PassSurplus(s, all, qs, plans) == 0
  {
    if qs != [] {
      SmoothPassHasNoSurplus(s, all, qs[..|qs| - 1], plans);
    }
  }

  // ---------- how many products there are ----------

  /** p needed a product at the origin, and has one now. */
  ghost predicate IsMet(origin: Shelf, s: Shelf, p: OdooProduct) {
    Sku(p) != "" && NeedsProduct(origin, p) && !NeedsProduct(s, p)
  }

  /** How many templates have a product that they needed at the origin. */
  ghost function Met(origin: Shelf, s: Shelf, qs: seq<OdooProduct>): nat {
    if qs == [] then 0
    else Met(origin, s, qs[..|qs| - 1]) + if IsMet(origin, s, qs[|qs| - 1]) then 1 else 0
  }

  lemma {:induction false} SameNeedsSameMet(origin: Shelf, s: Shelf, after: Shelf, qs: seq<OdooProduct>)
    requires forall q :: q in qs && Sku(q) != "" ==> (NeedsProduct(s, q) <==> NeedsProduct(after, q))
    ensures Met(origin, after, qs) == Met(origin, s, qs)
  {
    if qs != [] {
      SameNeedsSameMet(origin, s, after, qs[..|qs| - 1]);
    }
  }

  lemma {:induction false} OneMoreMet(origin: Shelf, s: Shelf, after: Shelf, qs: seq<OdooProduct>, p: OdooProduct)
    requires DistinctProducts(qs) && p in qs && !IsMet(origin, s, p) && IsMet(origin, after, p)
    requires forall q :: q in qs && q != p && Sku(q) != "" ==> (NeedsProduct(s, q) <==> NeedsProduct(after, q))
    ensures Met(origin, after, qs) == Met(origin, s, qs) + 1
  {
    var n := |qs| - 1;
    if qs[n] == p {
      SameNeedsSameMet(origin, s, after, qs[..n]);
    } else {
      OneMoreMet(origin, s, after, qs[..n], p);
    }
  }

  lemma {:induction false} AllMet(origin: Shelf, s: Shelf, qs: seq<OdooProduct>)
    requires forall q :: q in qs && Sku(q) != "" ==> !NeedsProduct(s, q)
    ensures Met(origin, s, qs) == Needed(origin, qs)
  {
    if qs != [] {
      AllMet(origin, s, qs[..|qs| - 1]);
    }
  }

  /** Another template needs a product after p's sync exactly if it did before. */
  lemma SyncKeepsNeeds(ps: seq<OdooProduct>, all: seq<OdooVariant>, durable: Mappings, s: Shelf, p: OdooProduct,
      plan: ProductPlan, q: OdooProduct)
    requires CatalogueShelf(ps, all, durable, s) && IsSold(ps, p) && IsSold(ps, q) && q != p
    ensures NeedsProduct(s, q) <==> NeedsProduct(SyncSingleProduct(s, all, p, plan).shelf, q)
  {
    SyncIsUnseen(ps, all, durable, s, p, plan, q);
    CataloguePass.NeedsIsUnseen(s, SyncSingleProduct(s, all, p, plan).shelf, q);
  }

  /** And p itself unless its creation took effect. */
  lemma SyncMeets(ps: seq<OdooProduct>, all: seq<OdooVariant>, durable: Mappings, s: Shelf, p: OdooProduct,
      plan: ProductPlan)
    requires CatalogueShelf(ps, all, durable, s) && IsSold(ps, p)
    ensures var after := SyncSingleProduct(s, all, p, plan).shelf;
      if Creates(s, p, plan) && plan.create.Effects() > 0 then NeedsProduct(s, p) && !NeedsProduct(after, p)
      else after.woo.products.Keys == s.woo.products.Keys && (NeedsProduct(s, p) <==> NeedsProduct(after, p))
  {
    var after := SyncSingleProduct(s, all, p, plan).shelf;
    MadeBySync(ps, all, durable, s, p, plan);
    SyncIsOwnBusiness(ps, all, durable, s, p, plan);
    if Creates(s, p, plan) && plan.create.Effects() > 0 {
      var x := s.woo.nextProduct;
      assert x in after.woo.products && x !in s.woo.products && Concerns(after, p, x);
    } else {
      assert after.woo.products.Keys == s.woo.products.Keys;
    }
  }

  /** Products made while p is synced: one if p had none, and the surplus. */
  lemma SyncAccount(ps: seq<OdooProduct>, all: seq<OdooVariant>, origin: Shelf, durable: Mappings, s: Shelf,
      p: OdooProduct, plan: ProductPlan)
    requires CatalogueShelf(ps, all, durable, s) && Inherits(ps, origin, durable, s) && p in ps
    ensures var after := SyncSingleProduct(s, all, p, plan).shelf;
      |after.woo.products.Keys| + Met(origin, s, ps) == |s.woo.products.Keys| + Met(origin, after, ps) + Surplus(s, p, plan)
  {
    if Sku(p) != "" {
      var after := SyncSingleProduct(s, all, p, plan).shelf;
      MadeBySync(ps, all, durable, s, p, plan);
      SyncMeets(ps, all, durable, s, p, plan);
      forall q | q in ps && q != p && Sku(q) != "" ensures NeedsProduct(s, q) <==> NeedsProduct(after, q) {
        SyncKeepsNeeds(ps, all, durable, s, p, plan, q);
      }
      if Creates(s, p, plan) && plan.create.Effects() > 0 {
        assert NeedsProduct(origin, p) by {
          forall x | x in origin.woo.products ensures !Concerns(origin, p, x) {
            assert Concerns(s, p, x) <==> Concerns(origin, p, x);
          }
        }
        OneMoreMet(origin, s, after, ps, p);
        MadeAreNew(s.woo, plan.create.Effects());
      } else {
        SameNeedsSameMet(origin, s, after, ps);
      }
    }
  }

  lemma MadeAreNew(woo: Woo, n: nat)
    requires WooSound(woo)
    ensures |woo.products.Keys + NextIds(woo.nextProduct, n)| == |woo.products.Keys| + n
  {
    assert woo.products.Keys !! NextIds(woo.nextProduct, n);
  }

  lemma {:induction false} PassAccount(ps: seq<OdooProduct>, all: seq<OdooVariant>, origin: Shelf, durable: Mappings,
      s: Shelf, qs: seq<OdooProduct>, plans: seq<ProductPlan>)
    requires CatalogueSound(ps, all, durable, s) && Inherits(ps, origin, durable, s) && forall q :: q in qs ==> q in ps
    ensures var after := CataloguePass.Pass(s, all, qs, plans).shelf;
      |after.woo.products.Keys| + Met(origin, s, ps)
      == |s.woo.products.Keys| + Met(origin, after, ps) + PassSurplus(s, all, qs, plans)
  {
    if qs != [] {
      var n := |qs| - 1;
      var before := CataloguePass.Pass(s, all, qs[..n], plans).shelf;
      PassAccount(ps, all, origin, durable, s, qs[..n], plans);
      CataloguePass.PassKeepsSound(ps, all, durable, s, qs[..n], plans);
      CataloguePass.PassInherits(ps, all, durable, origin, s, qs[..n], plans);
      SyncAccount(ps, all, origin, durable, before, qs[n], CataloguePass.PlanOf(plans, n));
      CataloguePass.PassLast(s, all, qs, plans);
    }
  }

  /** The tables that a rollback would bring back leave the same templates without a product. */
  lemma RollbackKeepsNeeds(ps: seq<OdooProduct>, origin: Shelf, durable: Mappings, s: Shelf, q: OdooProduct)
    requires Inherits(ps, origin, durable, s) && IsSold(ps, q)
    ensures NeedsProduct(s, q) <==> NeedsProduct(RolledBack(durable, s), q)
  {
    forall x | x in s.woo.products ensures Concerns(s, q, x) <==> Concerns(RolledBack(durable, s), q, x) {
    }
  }
}
