/** Syncing one template leaves the other templates, their rows, products and variants alone. */
module CatalogueFrames {
  import opened Outcomes
  import opened Tables
  import opened MappingRows
  import opened WooApi
  import opened ProductSync

  type Shelf = VariantSync.Shelf

  // ---------- variants stay with their template ----------

  ghost predicate HomeOf(p: OdooProduct, m: Mappings, parent: nat) {
    parent in m.products && Claims(p, m.products[parent])
  }

  /** The row of a variant lies under the row of its own template. */
  ghost predicate AtHome(ps: seq<OdooProduct>, all: seq<OdooVariant>, m: Mappings) {
    forall i, v, p ::
      && i in m.variants && VariantSync.IsListed(all, v) && IsSold(ps, p)
      && v.template == p.id && VariantSync.Owns(v, m.variants[i])
      ==> HomeOf(p, m, m.variants[i].parent)
  }

  /** The catalogue invariant together with the home of every variant row. */
  ghost predicate CatalogueSound(ps: seq<OdooProduct>, all: seq<OdooVariant>, durable: Mappings, s: Shelf) {
    && CatalogueShelf(ps, all, durable, s)
    && AtHome(ps, all, s.mappings)
    && AtHome(ps, all, durable)
  }

  lemma RewriteKeepsHome(ps: seq<OdooProduct>, all: seq<OdooVariant>, m: Mappings, n: nat, r: ProductRow)
    requires AtHome(ps, all, m)
    requires n in m.products ==> forall p :: IsSold(ps, p) && Claims(p, m.products[n]) ==> Claims(p, r)
    ensures AtHome(ps, all, m.(products := m.products[n := r]))
  {
  }

  lemma DropKeepsHome(ps: seq<OdooProduct>, all: seq<OdooVariant>, s: Shelf, i: nat)
    requires AtHome(ps, all, s.mappings)
    ensures AtHome(ps, all, DropRow(s, i).mappings)
  {
  }

  lemma LinkBySkuKeepsHome(ps: seq<OdooProduct>, all: seq<OdooVariant>, s: Shelf, row: Option<nat>, p: OdooProduct,
      plan: ProductPlan)
    requires AtHome(ps, all, s.mappings) && s.nextRow !in s.mappings.products
    requires row.Some? ==> row.value in s.mappings.products
    ensures AtHome(ps, all, LinkBySku(s, row, p, Sku(p), plan).shelf.mappings)
  {
  }

  lemma CorrectedKeepsHome(ps: seq<OdooProduct>, all: seq<OdooVariant>, durable: Mappings, s: Shelf, p: OdooProduct, i: nat)
    requires CatalogueSound(ps, all, durable, s) && IsSold(ps, p)
    requires i in s.mappings.products && Claims(p, s.mappings.products[i])
    ensures AtHome(ps, all, Corrected(s, i, p, Sku(p)).mappings)
  {
    RewriteKeepsHome(ps, all, s.mappings, i, Corrected(s, i, p, Sku(p)).mappings.products[i]);
  }

  lemma LinkProductKeepsHome(ps: seq<OdooProduct>, all: seq<OdooVariant>, durable: Mappings, s: Shelf,
      p: OdooProduct, plan: ProductPlan)
    requires CatalogueSound(ps, all, durable, s) && IsSold(ps, p)
    ensures AtHome(ps, all, LinkProduct(s, p, Sku(p), plan).shelf.mappings)
  {
    var sku := Sku(p);
    FoundRowIsClaimed(s.mappings.products, p);
    match ProductRowOf(s.mappings.products, p, sku) {
      case None =>
        LinkBySkuKeepsHome(ps, all, s, None, p, plan);
      case Some(i) =>
        var fixed := Corrected(s, i, p, sku);
        CorrectedKeepsHome(ps, all, durable, s, p, i);
        match s.mappings.products[i].woo {
          case None =>
            LinkBySkuKeepsHome(ps, all, fixed, Some(i), p, plan);
          case Some(x) =>
            match UpdateProduct(s.woo, x, Payload(p, sku), plan.update) {
              case Updated(woo) =>
                var r := fixed.mappings.products[i].(woo := Some(x), kind := Kind(p), status := SyncStatus.Synced);
                RewriteKeepsHome(ps, all, fixed.mappings, i, r);
              case Broken(_, _) =>
              case Missing =>
                DropKeepsHome(ps, all, fixed, i);
                LinkBySkuKeepsHome(ps, all, DropRow(fixed, i), None, p, plan);
            }
        }
    }
  }

  lemma FailureKeepsHome(ps: seq<OdooProduct>, all: seq<OdooVariant>, s: Shelf, sku: string, fault: Fault)
    requires AtHome(ps, all, s.mappings)
    ensures AtHome(ps, all, Failure(s, sku, fault).shelf.mappings)
  {
  }

  /** A new variant row belongs to the variant just synced; the others keep their keys and parents. */
  ghost predicate OnlyAdds(before: Mappings, after: Mappings, v: OdooVariant, parent: nat) {
    && after.products == before.products
    && forall i :: i in after.variants ==>
         || (i in before.variants && after.variants[i].odoo == before.variants[i].odoo
             && after.variants[i].sku == before.variants[i].sku && after.variants[i].parent == before.variants[i].parent)
         || (after.variants[i].odoo == v.id && after.variants[i].sku == v.code && after.variants[i].parent == parent)
  }

  lemma SyncVariantOnlyAdds(s: Shelf, v: OdooVariant, product: Id, parent: nat, plan: VariantSync.VariantPlan)
    ensures OnlyAdds(s.mappings, VariantSync.SyncVariant(s, v, product, parent, plan).shelf.mappings, v, parent)
  {
    VariantSync.FoundRowIsOwned(s.mappings.variants, v);
  }

  lemma AddingKeepsHome(ps: seq<OdooProduct>, all: seq<OdooVariant>, before: Mappings, after: Mappings,
      p: OdooProduct, v: OdooVariant, parent: nat)
    requires DistinctProducts(ps) && VariantSync.DistinctVariants(all)
    requires AtHome(ps, all, before) && OnlyAdds(before, after, v, parent)
    requires VariantSync.IsListed(all, v) && v.template == p.id && IsSold(ps, p) && HomeOf(p, before, parent)
    ensures AtHome(ps, all, after)
  {
  }

  lemma {:induction false} SyncVariantsKeepsHome(ps: seq<OdooProduct>, all: seq<OdooVariant>, s: Shelf,
      p: OdooProduct, vs: seq<OdooVariant>, x: Id, parent: nat, plans: seq<VariantSync.VariantPlan>)
    requires DistinctProducts(ps) && VariantSync.DistinctVariants(all) && IsSold(ps, p)
    requires AtHome(ps, all, s.mappings) && HomeOf(p, s.mappings, parent)
    requires forall v :: v in vs ==> v in all && v.active && v.template == p.id
    ensures var after := VariantSync.SyncVariants(s, vs, x, parent, plans).shelf.mappings;
      AtHome(ps, all, after) && HomeOf(p, after, parent)
  {
    if vs != [] {
      var n := |vs| - 1;
      SyncVariantsKeepsHome(ps, all, s, p, vs[..n], x, parent, plans);
      var before := VariantSync.SyncVariants(s, vs[..n], x, parent, plans).shelf;
      VariantSync.LastStep(s, vs, x, parent, plans);
      if vs[n].code != "" {
        SyncVariantOnlyAdds(before, vs[n], x, parent, VariantSync.PlanOf(plans, n));
        AddingKeepsHome(ps, all, before.mappings,
          VariantSync.SyncVariant(before, vs[n], x, parent, VariantSync.PlanOf(plans, n)).shelf.mappings, p, vs[n], parent);
      }
    }
  }

  lemma SyncSingleProductKeepsHome(ps: seq<OdooProduct>, all: seq<OdooVariant>, durable: Mappings, s: Shelf,
      p: OdooProduct, plan: ProductPlan)
    requires CatalogueSound(ps, all, durable, s) && p in ps
    ensures AtHome(ps, all, SyncSingleProduct(s, all, p, plan).shelf.mappings)
  {
    var sku := ResolvedSku(p, plan);
    if sku != "" {
      if plan.build.Some? {
        FailureKeepsHome(ps, all, s, sku, plan.build.value);
      } else {
        var link := LinkProduct(s, p, sku, plan);
        LinkProductKeepsHome(ps, all, durable, s, p, plan);
        LinkProductGood(ps, all, durable, s, p, plan);
        if link.got.Raised? {
          FailureKeepsHome(ps, all, link.shelf, sku, link.got.fault);
        } else if Kind(p).Variable? {
          if plan.fetchVariants.Some? {
            FailureKeepsHome(ps, all, link.shelf, sku, plan.fetchVariants.value);
          } else {
            var i :| SettledBy(link.shelf, p, i, link.got.value.woo);
            ParentRowIsSettled(link.shelf, p, i, link.got.value.woo);
            VariantSync.ActiveVariantsAre(all, p.id);
            SyncVariantsKeepsHome(ps, all, link.shelf, p, VariantSync.ActiveVariants(all, p.id), link.got.value.woo, i, plan.variants);
          }
        }
      }
    }
  }

  /** The whole invariant survives any outcome of one template. */
  lemma SyncKeepsSound(ps: seq<OdooProduct>, all: seq<OdooVariant>, durable: Mappings, s: Shelf, p: OdooProduct,
      plan: ProductPlan)
    requires CatalogueSound(ps, all, durable, s) && p in ps
    ensures CatalogueSound(ps, all, durable, SyncSingleProduct(s, all, p, plan).shelf)
  {
    SyncSingleProductKeeps(ps, all, durable, s, p, plan);
    SyncSingleProductKeepsHome(ps, all, durable, s, p, plan);
  }

  // ---------- what another template sees ----------

  ghost predicate Claimed(rows: map<nat, ProductRow>, i: nat, q: OdooProduct) {
    i in rows && Claims(q, rows[i])
  }

  /** x is q's business: it carries q's SKU or q's row is linked to it. */
  ghost predicate Concerns(s: Shelf, q: OdooProduct, x: Id) {
    Carries(s.woo, x, q) || exists i :: Claimed(s.mappings.products, i, q) && LinkedTo(s.mappings.products, i, x)
  }

  /** Rows and products that concern q are the same in both states, and nothing new concerns it. */
  ghost predicate SameView(before: Shelf, after: Shelf, q: OdooProduct) {
    && (forall i :: Claimed(before.mappings.products, i, q) <==> Claimed(after.mappings.products, i, q))
    && (forall i :: Claimed(before.mappings.products, i, q) ==> after.mappings.products[i] == before.mappings.products[i])
    && (forall x :: Concerns(before, q, x) ==>
          && (x in after.woo.products <==> x in before.woo.products)
          && (x in before.woo.products ==> after.woo.products[x] == before.woo.products[x]))
    && (forall x :: Carries(after.woo, x, q) ==> Carries(before.woo, x, q))
  }

  lemma SameViewRefl(s: Shelf, q: OdooProduct)
    ensures SameView(s, s, q)
  {
  }

  lemma ConcernsCarryOver(before: Shelf, after: Shelf, q: OdooProduct, x: Id)
    requires SameView(before, after, q) && Concerns(before, q, x)
    ensures Concerns(after, q, x)
  {
  }

  lemma SameViewTrans(a: Shelf, b: Shelf, c: Shelf, q: OdooProduct)
    requires SameView(a, b, q) && SameView(b, c, q)
    ensures SameView(a, c, q)
  {
  }

  /** Writing a product that does not concern q, with another SKU. */
  lemma WriteIsUnseen(s: Shelf, after: Woo, p: OdooProduct, x: Id, q: OdooProduct)
    requires Sku(p) != Sku(q) && !Concerns(s, q, x) && after.products == s.woo.products[x := Payload(p, Sku(p))]
    ensures SameView(s, s.(woo := after), q)
  {
  }

  lemma RowsAreUnseen(before: Shelf, after: Shelf, q: OdooProduct)
    requires after.woo.products == before.woo.products
    requires forall i :: Claimed(before.mappings.products, i, q) <==> Claimed(after.mappings.products, i, q)
    requires forall i :: Claimed(before.mappings.products, i, q) ==>
      i in after.mappings.products && after.mappings.products[i] == before.mappings.products[i]
    ensures SameView(before, after, q)
  {
  }

  /** A product that p writes to never concerns q. */
  lemma NotConcerned(ps: seq<OdooProduct>, all: seq<OdooVariant>, durable: Mappings, s: Shelf, p: OdooProduct,
      q: OdooProduct, x: Id)
    requires CatalogueShelf(ps, all, durable, s) && IsSold(ps, p) && IsSold(ps, q) && p != q
    requires
      || Carries(s.woo, x, p)
      || exists i :: Claimed(s.mappings.products, i, p) && LinkedTo(s.mappings.products, i, x)
    ensures !Concerns(s, q, x)
  {
  }

  lemma RestIsUnseen(ps: seq<OdooProduct>, s: Shelf, after: Shelf, n: nat, q: OdooProduct)
    requires after.woo.products == s.woo.products
    requires !Claimed(s.mappings.products, n, q) && !Claimed(after.mappings.products, n, q)
    requires forall i :: i != n ==> (i in after.mappings.products <==> i in s.mappings.products)
    requires forall i :: i != n && i in s.mappings.products ==> after.mappings.products[i] == s.mappings.products[i]
    ensures SameView(s, after, q)
  {
  }

  lemma AttachIsUnseen(ps: seq<OdooProduct>, s: Shelf, row: Option<nat>, p: OdooProduct, x: Id, q: OdooProduct)
    requires DistinctProducts(ps) && IsSold(ps, p) && IsSold(ps, q) && p != q
    requires s.nextRow !in s.mappings.products
    requires row.Some? ==>
      && row.value in s.mappings.products
      && s.mappings.products[row.value].odoo == p.id && s.mappings.products[row.value].sku == Sku(p)
    ensures SameView(s, AttachProduct(s, row, p, Sku(p), x), q)
  {
  }

  lemma AdoptIsUnseen(ps: seq<OdooProduct>, all: seq<OdooVariant>, durable: Mappings, s: Shelf, row: Option<nat>,
      p: OdooProduct, q: OdooProduct, x: Id)
    requires CatalogueShelf(ps, all, durable, s) && IsSold(ps, p) && IsSold(ps, q) && p != q && Unlinked(s, row, p)
    requires Carries(s.woo, x, p)
    ensures var mid := s.(woo := s.woo.(products := s.woo.products[x := Payload(p, Sku(p))]));
      SameView(s, mid, q) && SameView(s, AttachProduct(mid, row, p, Sku(p), x), q)
  {
    DifferentProducts(ps, p, q);
    NotConcerned(ps, all, durable, s, p, q, x);
    var woo := s.woo.(products := s.woo.products[x := Payload(p, Sku(p))]);
    WriteIsUnseen(s, woo, p, x, q);
    AttachIsUnseen(ps, s.(woo := woo), row, p, x, q);
    SameViewTrans(s, s.(woo := woo), AttachProduct(s.(woo := woo), row, p, Sku(p), x), q);
  }

  lemma MakeIsUnseen(s: Shelf, p: OdooProduct, n: nat, q: OdooProduct)
    requires Sku(p) != Sku(q) && WooSound(s.woo) && ProductRowsSound(s.mappings.products, s.woo, s.nextRow)
    ensures SameView(s, s.(woo := MakeProducts(s.woo, Payload(p, Sku(p)), n)), q)
  {
    forall x: Id | Concerns(s, q, x) ensures x < s.woo.nextProduct {
    }
  }

  lemma CreateIsUnseen(ps: seq<OdooProduct>, all: seq<OdooVariant>, durable: Mappings, s: Shelf, row: Option<nat>,
      p: OdooProduct, n: nat, x: Id, q: OdooProduct)
    requires CatalogueShelf(ps, all, durable, s) && IsSold(ps, p) && IsSold(ps, q) && p != q && Unlinked(s, row, p)
    ensures var mid := s.(woo := MakeProducts(s.woo, Payload(p, Sku(p)), n));
      SameView(s, mid, q) && SameView(s, AttachProduct(mid, row, p, Sku(p), x), q)
  {
    DifferentProducts(ps, p, q);
    MakeIsUnseen(s, p, n, q);
    MadeThenAttached(ps, s, MakeProducts(s.woo, Payload(p, Sku(p)), n), row, p, x, q);
  }

  lemma MadeThenAttached(ps: seq<OdooProduct>, s: Shelf, made: Woo, row: Option<nat>, p: OdooProduct, x: Id, q: OdooProduct)
    requires DistinctProducts(ps) && IsSold(ps, p) && IsSold(ps, q) && p != q && Unlinked(s, row, p)
    requires s.nextRow !in s.mappings.products && SameView(s, s.(woo := made), q)
    ensures SameView(s, AttachProduct(s.(woo := made), row, p, Sku(p), x), q)
  {
    AttachIsUnseen(ps, s.(woo := made), row, p, x, q);
    SameViewTrans(s, s.(woo := made), AttachProduct(s.(woo := made), row, p, Sku(p), x), q);
  }

  lemma AdoptEnds(s: Shelf, row: Option<nat>, p: OdooProduct, plan: ProductPlan, x: Id)
    requires row.Some? ==> row.value in s.mappings.products
    requires plan.lookup.None? && Chosen(ProductsWithSku(s.woo, Sku(p)), plan.preferred) == Some(x)
    ensures var end := LinkBySku(s, row, p, Sku(p), plan).shelf;
      var mid := s.(woo := s.woo.(products := s.woo.products[x := Payload(p, Sku(p))]));
      end == s || end == mid || end == AttachProduct(mid, row, p, Sku(p), x)
  {
  }

  lemma CreateEnds(s: Shelf, row: Option<nat>, p: OdooProduct, plan: ProductPlan)
    requires row.Some? ==> row.value in s.mappings.products
    requires plan.lookup.None? && Chosen(ProductsWithSku(s.woo, Sku(p)), plan.preferred) == None
    ensures var end := LinkBySku(s, row, p, Sku(p), plan).shelf;
      var mid := s.(woo := CreateProduct(s.woo, Payload(p, Sku(p)), plan.create).woo);
      end == mid || (plan.create.last.Ok? && end == AttachProduct(mid, row, p, Sku(p), s.woo.nextProduct + plan.create.resent))
  {
  }

  lemma LinkBySkuIsUnseen(ps: seq<OdooProduct>, all: seq<OdooVariant>, durable: Mappings, s: Shelf, row: Option<nat>,
      p: OdooProduct, plan: ProductPlan, q: OdooProduct)
    requires CatalogueShelf(ps, all, durable, s) && IsSold(ps, p) && IsSold(ps, q) && p != q && Unlinked(s, row, p)
    ensures SameView(s, LinkBySku(s, row, p, Sku(p), plan).shelf, q)
  {
    SameViewRefl(s, q);
    if plan.lookup.None? {
      var found := Chosen(ProductsWithSku(s.woo, Sku(p)), plan.preferred);
      if found.Some? {
        AdoptEnds(s, row, p, plan, found.value);
        AdoptIsUnseen(ps, all, durable, s, row, p, q, found.value);
      } else {
        CreateEnds(s, row, p, plan);
        CreateIsUnseen(ps, all, durable, s, row, p, plan.create.Effects(), s.woo.nextProduct + plan.create.resent, q);
      }
    }
  }

  lemma UpdateIsUnseen(ps: seq<OdooProduct>, all: seq<OdooVariant>, durable: Mappings, s: Shelf, i: nat,
      p: OdooProduct, x: Id, q: OdooProduct)
    requires CatalogueShelf(ps, all, durable, s) && IsSold(ps, p) && IsSold(ps, q) && p != q
    requires LinkedTo(s.mappings.products, i, x) && x in s.woo.products
    requires s.mappings.products[i].odoo == p.id && s.mappings.products[i].sku == Sku(p)
    ensures var mid := s.(woo := s.woo.(products := s.woo.products[x := Payload(p, Sku(p))]));
      SameView(s, mid, q) && SameView(s, AttachProduct(mid, Some(i), p, Sku(p), x), q)
  {
    DifferentProducts(ps, p, q);
    assert Claimed(s.mappings.products, i, p);
    NotConcerned(ps, all, durable, s, p, q, x);
    var woo := s.woo.(products := s.woo.products[x := Payload(p, Sku(p))]);
    WriteIsUnseen(s, woo, p, x, q);
    AttachIsUnseen(ps, s.(woo := woo), Some(i), p, x, q);
    SameViewTrans(s, s.(woo := woo), AttachProduct(s.(woo := woo), Some(i), p, Sku(p), x), q);
  }

  lemma CorrectIsUnseen(ps: seq<OdooProduct>, s: Shelf, i: nat, p: OdooProduct, q: OdooProduct)
    requires DistinctProducts(ps) && ProductOwners(ps, s.mappings.products)
    requires IsSold(ps, p) && IsSold(ps, q) && p != q
    requires i in s.mappings.products && Claims(p, s.mappings.products[i])
    ensures SameView(s, Corrected(s, i, p, Sku(p)), q)
  {
  }

  lemma UpdateEnds(s: Shelf, i: nat, p: OdooProduct, plan: ProductPlan, x: Id)
    requires ProductRowOf(s.mappings.products, p, Sku(p)) == Some(i) && LinkedTo(s.mappings.products, i, x)
    ensures var end := LinkProduct(s, p, Sku(p), plan).shelf;
      var fixed := Corrected(s, i, p, Sku(p));
      var mid := fixed.(woo := s.woo.(products := s.woo.products[x := Payload(p, Sku(p))]));
      if UpdateProduct(s.woo, x, Payload(p, Sku(p)), plan.update).Missing?
      then x !in s.woo.products && end == LinkBySku(DropRow(fixed, i), None, p, Sku(p), plan).shelf
      else end == fixed || (x in s.woo.products && (end == mid || end == AttachProduct(mid, Some(i), p, Sku(p), x)))
  {
  }

  lemma RelinkIsUnseen(ps: seq<OdooProduct>, all: seq<OdooVariant>, durable: Mappings, s: Shelf, i: nat,
      p: OdooProduct, x: Id, plan: ProductPlan, q: OdooProduct)
    requires CatalogueShelf(ps, all, durable, s) && IsSold(ps, p) && IsSold(ps, q) && p != q
    requires LinkedTo(s.mappings.products, i, x) && x !in s.woo.products
    requires Claims(p, s.mappings.products[i])
    ensures SameView(s, LinkBySku(DropRow(s, i), None, p, Sku(p), plan).shelf, q)
  {
    var dropped := DropRow(s, i);
    DropKeeps(ps, all, durable, s, i, x);
    DroppedIsUnlinked(ps, s, i, p);
    RestIsUnseen(ps, s, dropped, i, q);
    LinkBySkuIsUnseen(ps, all, durable, dropped, None, p, plan, q);
    SameViewTrans(s, dropped, LinkBySku(dropped, None, p, Sku(p), plan).shelf, q);
  }

  lemma LinkedIsUnseen(ps: seq<OdooProduct>, all: seq<OdooVariant>, durable: Mappings, s: Shelf, i: nat,
      p: OdooProduct, x: Id, plan: ProductPlan, q: OdooProduct)
    requires CatalogueShelf(ps, all, durable, s) && IsSold(ps, p) && IsSold(ps, q) && p != q
    requires ProductRowOf(s.mappings.products, p, Sku(p)) == Some(i) && LinkedTo(s.mappings.products, i, x)
    requires i in s.mappings.products && Claims(p, s.mappings.products[i])
    ensures SameView(s, LinkProduct(s, p, Sku(p), plan).shelf, q)
  {
    var fixed := Corrected(s, i, p, Sku(p));
    CorrectKeeps(ps, all, durable, s, p, i);
    CorrectIsUnseen(ps, s, i, p, q);
    UpdateEnds(s, i, p, plan, x);
    SameViewRefl(fixed, q);
    if x in s.woo.products {
      UpdateIsUnseen(ps, all, durable, fixed, i, p, x, q);
    } else {
      RelinkIsUnseen(ps, all, durable, fixed, i, p, x, plan, q);
    }
    SameViewTrans(s, fixed, LinkProduct(s, p, Sku(p), plan).shelf, q);
  }

  lemma LinkProductIsUnseen(ps: seq<OdooProduct>, all: seq<OdooVariant>, durable: Mappings, s: Shelf, p: OdooProduct,
      plan: ProductPlan, q: OdooProduct)
    requires CatalogueShelf(ps, all, durable, s) && IsSold(ps, p) && IsSold(ps, q) && p != q
    ensures SameView(s, LinkProduct(s, p, Sku(p), plan).shelf, q)
  {
    var row := ProductRowOf(s.mappings.products, p, Sku(p));
    FoundRowIsClaimed(s.mappings.products, p);
    if row.None? {
      LinkBySkuIsUnseen(ps, all, durable, s, None, p, plan, q);
    } else if s.mappings.products[row.value].woo.Some? {
      LinkedIsUnseen(ps, all, durable, s, row.value, p, s.mappings.products[row.value].woo.value, plan, q);
    } else {
      var fixed := Corrected(s, row.value, p, Sku(p));
      CorrectKeeps(ps, all, durable, s, p, row.value);
      CorrectIsUnseen(ps, s, row.value, p, q);
      ClaimedRowIsFound(ps, fixed.mappings.products, row.value, p);
      LinkBySkuIsUnseen(ps, all, durable, fixed, row, p, plan, q);
      SameViewTrans(s, fixed, LinkProduct(s, p, Sku(p), plan).shelf, q);
    }
  }

  lemma FailureIsUnseen(ps: seq<OdooProduct>, s: Shelf, p: OdooProduct, fault: Fault, q: OdooProduct)
    requires DistinctProducts(ps) && ProductOwners(ps, s.mappings.products)
    requires IsSold(ps, p) && IsSold(ps, q) && p != q
    ensures SameView(s, Failure(s, Sku(p), fault).shelf, q)
  {
  }

  /** Whatever happens while p is synced, the row and the product of q stay as they are. */
  lemma SyncIsUnseen(ps: seq<OdooProduct>, all: seq<OdooVariant>, durable: Mappings, s: Shelf, p: OdooProduct,
      plan: ProductPlan, q: OdooProduct)
    requires CatalogueShelf(ps, all, durable, s) && p in ps && IsSold(ps, q) && p != q
    ensures SameView(s, SyncSingleProduct(s, all, p, plan).shelf, q)
  {
    SameViewRefl(s, q);
    if ResolvedSku(p, plan) != "" {
      if plan.build.Some? {
        FailureIsUnseen(ps, s, p, plan.build.value, q);
      } else {
        var link := LinkProduct(s, p, Sku(p), plan);
        LinkProductIsUnseen(ps, all, durable, s, p, plan, q);
        LinkProductGood(ps, all, durable, s, p, plan);
        var end := SyncSingleProduct(s, all, p, plan).shelf;
        if link.got.Raised? {
          FailureIsUnseen(ps, link.shelf, p, link.got.fault, q);
        } else if Kind(p).Variable? {
          if plan.fetchVariants.Some? {
            FailureIsUnseen(ps, link.shelf, p, plan.fetchVariants.value, q);
          } else {
            var i :| SettledBy(link.shelf, p, i, link.got.value.woo);
            SyncVariantsKeepsCatalogue(ps, all, durable, link.shelf, p, link.got.value.woo, i, plan.variants);
            RowsAreUnseen(link.shelf, end, q);
          }
        } else {
          SameViewRefl(end, q);
        }
        SameViewTrans(s, link.shelf, end, q);
      }
    }
  }

  // ---------- what other templates' variants see ----------

  ghost predicate SameVariants(before: Shelf, after: Shelf) {
    && after.mappings.variants == before.mappings.variants
    && after.woo.variations == before.woo.variations
    && after.woo.madeUnder == before.woo.madeUnder
  }

  lemma LinkBySkuSameVariants(s: Shelf, row: Option<nat>, p: OdooProduct, plan: ProductPlan)
    requires row.Some? ==> row.value in s.mappings.products
    ensures SameVariants(s, LinkBySku(s, row, p, Sku(p), plan).shelf)
  {
  }

  lemma LinkingAndVariants(s: Shelf, p: OdooProduct, plan: ProductPlan)
    ensures var after := LinkProduct(s, p, Sku(p), plan).shelf;
      var row := ProductRowOf(s.mappings.products, p, Sku(p));
      || SameVariants(s, after)
      || (row.Some? && SameVariants(DropRow(s, row.value), after))
  {
    var sku := Sku(p);
    FoundRowIsClaimed(s.mappings.products, p);
    match ProductRowOf(s.mappings.products, p, sku) {
      case None =>
        LinkBySkuSameVariants(s, None, p, plan);
      case Some(i) =>
        var fixed := Corrected(s, i, p, sku);
        match s.mappings.products[i].woo {
          case None =>
            LinkBySkuSameVariants(fixed, Some(i), p, plan);
          case Some(x) =>
            UpdateEnds(s, i, p, plan, x);
            LinkBySkuSameVariants(DropRow(fixed, i), None, p, plan);
        }
    }
  }

  lemma DropIsUnseenByVariant(s: Shelf, after: Shelf, i: nat, v: OdooVariant)
    requires SameVariants(s, after) || SameVariants(DropRow(s, i), after)
    requires forall j :: j in s.mappings.variants && VariantSync.Owns(v, s.mappings.variants[j]) ==>
      s.mappings.variants[j].parent != i
    ensures VariantSync.SameFor(s, after, v)
  {
    var before, rows := s.mappings.variants, after.mappings.variants;
    VariantSync.FoundRowIsOwned(before, v);
    VariantSync.FoundRowIsOwned(rows, v);
    forall j ensures j in VariantsOfOdoo(rows, v.id) <==> j in VariantsOfOdoo(before, v.id) {
      assert j in before && before[j].odoo == v.id ==> VariantSync.Owns(v, before[j]);
    }
    assert VariantsOfOdoo(rows, v.id) == VariantsOfOdoo(before, v.id);
    forall j ensures j in VariantsOfSku(rows, v.code) <==> j in VariantsOfSku(before, v.code) {
      assert j in before && before[j].sku == v.code ==> VariantSync.Owns(v, before[j]);
    }
    assert VariantsOfSku(rows, v.code) == VariantsOfSku(before, v.code);
  }

  lemma SameVariantsUnseen(before: Shelf, after: Shelf, v: OdooVariant)
    requires SameVariants(before, after)
    ensures VariantSync.SameFor(before, after, v)
  {
  }

  lemma LinkIsUnseenByVariant(ps: seq<OdooProduct>, all: seq<OdooVariant>, durable: Mappings, s: Shelf,
      p: OdooProduct, plan: ProductPlan, q: OdooProduct, v: OdooVariant)
    requires CatalogueSound(ps, all, durable, s) && IsSold(ps, p) && IsSold(ps, q) && p != q
    requires VariantSync.IsListed(all, v) && v.template == q.id
    ensures VariantSync.SameFor(s, LinkProduct(s, p, Sku(p), plan).shelf, v)
  {
    var after := LinkProduct(s, p, Sku(p), plan).shelf;
    var row := ProductRowOf(s.mappings.products, p, Sku(p));
    FoundRowIsClaimed(s.mappings.products, p);
    LinkingAndVariants(s, p, plan);
    if SameVariants(s, after) {
      SameVariantsUnseen(s, after, v);
    } else {
      forall j | j in s.mappings.variants && VariantSync.Owns(v, s.mappings.variants[j])
        ensures s.mappings.variants[j].parent != row.value {
        assert HomeOf(q, s.mappings, s.mappings.variants[j].parent);
        assert Claims(p, s.mappings.products[row.value]);
      }
      DropIsUnseenByVariant(s, after, row.value, v);
    }
  }

  lemma VariantPartIsUnseen(ps: seq<OdooProduct>, all: seq<OdooVariant>, durable: Mappings, s: Shelf, p: OdooProduct,
      x: Id, plans: seq<VariantSync.VariantPlan>, v: OdooVariant)
    requires CatalogueShelf(ps, all, durable, s) && exists i :: SettledBy(s, p, i, x)
    requires VariantSync.IsListed(all, v) && v.template != p.id
    ensures VariantSync.SameFor(s, VariantSync.SyncVariants(s, VariantSync.ActiveVariants(all, p.id), x, ParentRow(s, Sku(p)), plans).shelf, v)
  {
    var i :| SettledBy(s, p, i, x);
    ParentRowIsSettled(s, p, i, x);
    VariantSync.ActiveVariantsAre(all, p.id);
    VariantSync.ListLeavesOthers(all, durable, s, VariantSync.ActiveVariants(all, p.id), x, ParentRow(s, Sku(p)), plans, v);
  }

  lemma FailureSameVariants(s: Shelf, sku: string, fault: Fault)
    ensures SameVariants(s, Failure(s, sku, fault).shelf)
  {
  }

  /** Whatever happens while p is synced, the row and the variation of a variant of q stay as they are. */
  lemma SyncIsUnseenByVariant(ps: seq<OdooProduct>, all: seq<OdooVariant>, durable: Mappings, s: Shelf,
      p: OdooProduct, plan: ProductPlan, q: OdooProduct, v: OdooVariant)
    requires CatalogueSound(ps, all, durable, s) && p in ps && IsSold(ps, q) && p != q
    requires VariantSync.IsListed(all, v) && v.template == q.id
    ensures VariantSync.SameFor(s, SyncSingleProduct(s, all, p, plan).shelf, v)
  {
    var end := SyncSingleProduct(s, all, p, plan).shelf;
    if ResolvedSku(p, plan) == "" {
      VariantSync.SameForRefl(s, v);
    } else if plan.build.Some? {
      FailureSameVariants(s, Sku(p), plan.build.value);
      SameVariantsUnseen(s, end, v);
    } else {
      var link := LinkProduct(s, p, Sku(p), plan);
      LinkIsUnseenByVariant(ps, all, durable, s, p, plan, q, v);
      assert VariantSync.SameFor(link.shelf, end, v) by {
        if link.got.Done? && Kind(p).Variable? && plan.fetchVariants.None? {
          LinkProductGood(ps, all, durable, s, p, plan);
          DifferentProducts(ps, p, q);
          VariantPartIsUnseen(ps, all, durable, link.shelf, p, link.got.value.woo, plan.variants, v);
        } else {
          SameVariantsUnseen(link.shelf, end, v);
        }
      }
      VariantSync.SameForTrans(s, link.shelf, end, v);
    }
  }

  // ---------- links are never replaced in place ----------

  /** A linked row keeps its link or disappears, and new rows get new ids. */
  ghost predicate NeverRelinks(before: map<nat, ProductRow>, after: map<nat, ProductRow>, nextRow: nat) {
    && (forall i :: i in before && i in after && before[i].woo.Some? ==> after[i].woo == before[i].woo)
    && (forall i :: i in after && i !in before ==> nextRow <= i)
  }

  ghost predicate RowsBelow(rows: map<nat, ProductRow>, bound: nat) {
    forall i :: i in rows ==> i < bound
  }

  lemma LinkBySkuNeverRelinks(s: Shelf, row: Option<nat>, p: OdooProduct, sku: string, plan: ProductPlan)
    requires row.Some? ==> row.value in s.mappings.products && s.mappings.products[row.value].woo.None?
    requires RowsBelow(s.mappings.products, s.nextRow)
    ensures var after := LinkBySku(s, row, p, sku, plan).shelf;
      && s.nextRow <= after.nextRow && RowsBelow(after.mappings.products, after.nextRow)
      && NeverRelinks(s.mappings.products, after.mappings.products, s.nextRow)
  {
  }

  lemma LinkProductNeverRelinks(s: Shelf, p: OdooProduct, sku: string, plan: ProductPlan)
    requires RowsBelow(s.mappings.products, s.nextRow)
    ensures var after := LinkProduct(s, p, sku, plan).shelf;
      && s.nextRow <= after.nextRow && RowsBelow(after.mappings.products, after.nextRow)
      && NeverRelinks(s.mappings.products, after.mappings.products, s.nextRow)
  {
    match ProductRowOf(s.mappings.products, p, sku) {
      case None =>
        LinkBySkuNeverRelinks(s, None, p, sku, plan);
      case Some(i) =>
        var fixed := Corrected(s, i, p, sku);
        LinkBySkuNeverRelinks(DropRow(fixed, i), None, p, sku, plan);
        if s.mappings.products[i].woo.None? {
          LinkBySkuNeverRelinks(fixed, Some(i), p, sku, plan);
        }
    }
  }

  lemma SyncNeverRelinks(s: Shelf, all: seq<OdooVariant>, p: OdooProduct, plan: ProductPlan)
    requires RowsBelow(s.mappings.products, s.nextRow)
    ensures var after := SyncSingleProduct(s, all, p, plan).shelf;
      && s.nextRow <= after.nextRow && RowsBelow(after.mappings.products, after.nextRow)
      && NeverRelinks(s.mappings.products, after.mappings.products, s.nextRow)
  {
    var sku := ResolvedSku(p, plan);
    if sku != "" && plan.build.None? {
      LinkProductNeverRelinks(s, p, sku, plan);
      var link := LinkProduct(s, p, sku, plan);
      if link.got.Done? {
        VariantsKeepRows(link.shelf, VariantSync.ActiveVariants(all, p.id), link.got.value.woo, ParentRow(link.shelf, sku), plan.variants);
      }
    }
  }

  lemma {:induction false} VariantsKeepRows(s: Shelf, vs: seq<OdooVariant>, x: Id, parent: nat,
      plans: seq<VariantSync.VariantPlan>)
    ensures var after := VariantSync.SyncVariants(s, vs, x, parent, plans).shelf;
      after.mappings.products == s.mappings.products && after.nextRow == s.nextRow
  {
    if vs != [] {
      VariantsKeepRows(s, vs[..|vs| - 1], x, parent, plans);
      VariantSync.LastStep(s, vs, x, parent, plans);
    }
  }
}
