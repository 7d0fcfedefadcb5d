/** Variations over every run: unique SKUs, and variants that are lost. */
module VariationRuns {
  import opened Outcomes
  import opened Tables
  import opened WooApi
  import opened Worlds
  import opened RetryQueue
  import opened Runs
  import opened CatalogueRuns
  import opened VariationSkus

  // ---------- unique SKUs ----------

  ghost predicate VariationsUnique(cfg: Config, w: World) {
    SkusUnique(cfg.variants, w.committed.mappings, ShelfOf(w))
  }

  /** The operation takes the branch that makes a second variation: see VariationSkus.Doubles. */
  ghost predicate StepDoubles(cfg: Config, w: World, op: Op) {
    PassDoubles(ShelfOf(w), cfg.variants, BatchOf(cfg, w, op).products, BatchOf(cfg, w, op).plans)
  }

  ghost predicate RunDoubles(cfg: Config, w: World, ops: seq<Op>) {
    ops != [] &&
    var n := |ops| - 1;
    RunDoubles(cfg, w, ops[..n]) || StepDoubles(cfg, Run(cfg, w, ops[..n]), ops[n])
  }

  lemma MappingsMoveUnique(cfg: Config, w: World, after: World)
    requires VariationsUnique(cfg, w) && MappingsMove(w, after)
    ensures VariationsUnique(cfg, after)
  {
  }

  lemma FewerVariationsUnique(all: seq<OdooVariant>, durable: Mappings, s: Shelf, woo: Woo)
    requires SkusUnique(all, durable, s)
    requires forall z :: z in woo.variations ==> z in s.woo.variations && woo.variations[z] == s.woo.variations[z]
    ensures SkusUnique(all, durable, s.(woo := woo))
  {
    forall z, x, v ensures Bears(woo, z, x, v) ==> Bears(s.woo, z, x, v) {
    }
  }

  lemma StepKeepsUnique(cfg: Config, w: World, op: Op)
    requires Consistent(cfg, w) && VariationsUnique(cfg, w) && !StepDoubles(cfg, w, op)
    ensures VariationsUnique(cfg, Step(cfg, w, op))
  {
    match op {
      case ShopOp(gone) =>
        FewerVariationsUnique(cfg.variants, w.committed.mappings, ShelfOf(w), DeleteProduct(w.woo, gone));
        assert ShelfOf(Step(cfg, w, op)) == ShelfOf(w).(woo := DeleteProduct(w.woo, gone));
      case VariationOp(gone) =>
        FewerVariationsUnique(cfg.variants, w.committed.mappings, ShelfOf(w), DeleteVariation(w.woo, gone));
        assert ShelfOf(Step(cfg, w, op)) == ShelfOf(w).(woo := DeleteVariation(w.woo, gone));
      case _ =>
        var b := BatchOf(cfg, w, op);
        BatchIsOfTemplates(cfg, w, op);
        PassKeepsUnique(cfg.templates, cfg.variants, w.committed.mappings, ShelfOf(w), b.products, b.plans);
        StepIsBatch(cfg, w, op);
        MappingsMoveUnique(cfg, PutShelf(w, ShelfAfter(cfg, w, b)), Step(cfg, w, op));
    }
  }

  /** Over every run in which that branch is never taken, whatever else fails, crashes or is deleted, no two
      variations of a product share the SKU of a variant. */
  lemma {:induction false} RunKeepsUnique(cfg: Config, w: World, ops: seq<Op>)
    requires Consistent(cfg, w) && VariationsUnique(cfg, w) && !RunDoubles(cfg, w, ops)
    ensures VariationsUnique(cfg, Run(cfg, w, ops))
  {
    if ops != [] {
      var n := |ops| - 1;
      RunKeepsUnique(cfg, w, ops[..n]);
      RunConsistent(cfg, w, ops[..n]);
      StepKeepsUnique(cfg, Run(cfg, w, ops[..n]), ops[n]);
    }
  }

  // ---------- lost variants ----------

  /** Every variation ever made under a product that still lives is alive itself. */
  ghost predicate Whole(woo: Woo) {
    forall z :: z in woo.madeUnder ==>
      woo.madeUnder[z] < woo.nextProduct && (woo.madeUnder[z] in woo.products ==> z in woo.variations)
  }

  lemma WholeLosesNone(s: Shelf, v: OdooVariant)
    requires Whole(s.woo) && VariantSync.Parented(s.mappings, s.woo)
    ensures !CataloguePass.Lost(s, v)
  {
  }

  lemma UpdateKeepsWhole(woo: Woo, product: Id, z: Id, sku: string, data: string, call: Call)
    requires Whole(woo)
    ensures Whole(UpdateVariation(woo, product, z, sku, data, call).woo)
  {
  }

  lemma CreateKeepsWhole(woo: Woo, product: Id, sku: string, data: string, posting: Posting)
    requires Whole(woo) && WooSound(woo)
    ensures Whole(CreateVariation(woo, product, sku, data, posting).woo)
  {
  }

  lemma SyncVariantKeepsWhole(s: Shelf, v: OdooVariant, product: Id, parent: nat, plan: VariantSync.VariantPlan)
    requires Whole(s.woo) && WooSound(s.woo)
    ensures Whole(VariantSync.SyncVariant(s, v, product, parent, plan).shelf.woo)
  {
    VariantSync.FoundRowIsOwned(s.mappings.variants, v);
    var row := VariantSync.VariantRowOf(s.mappings.variants, v);
    if row.Some? && s.mappings.variants[row.value].woo.Some? {
      UpdateKeepsWhole(s.woo, product, s.mappings.variants[row.value].woo.value, v.code, v.data, plan.update);
    } else {
      var found := if plan.listingFails then None else Chosen(VariationsUnder(s.woo, product, v.code), plan.preferred);
      if found.Some? {
        UpdateKeepsWhole(s.woo, product, found.value, v.code, v.data, plan.adopt);
      } else {
        CreateKeepsWhole(s.woo, product, v.code, v.data, plan.create);
      }
    }
  }

  lemma {:induction false} SyncVariantsKeepWhole(all: seq<OdooVariant>, durable: Mappings, s: Shelf, vs: seq<OdooVariant>,
      product: Id, parent: nat, plans: seq<VariantSync.VariantPlan>)
    requires Whole(s.woo) && VariantSync.VariantShelf(all, durable, s) && VariantSync.RightPlace(s, product, parent)
    requires forall v :: v in vs ==> v in all && v.active
    ensures Whole(VariantSync.SyncVariants(s, vs, product, parent, plans).shelf.woo)
  {
    if vs != [] {
      var n := |vs| - 1;
      var before := VariantSync.SyncVariants(s, vs[..n], product, parent, plans).shelf;
      SyncVariantsKeepWhole(all, durable, s, vs[..n], product, parent, plans);
      assert WooSound(before.woo) by {
        VariantSync.SyncVariantsKeeps(all, durable, s, vs[..n], product, parent, plans);
      }
      SyncVariantKeepsWhole(before, vs[n], product, parent, VariantSync.PlanOf(plans, n));
      VariantSync.LastStep(s, vs, product, parent, plans);
    }
  }

  lemma LinkBySkuKeepsWhole(s: Shelf, row: Option<nat>, p: OdooProduct, plan: ProductSync.ProductPlan)
    requires row.Some? ==> row.value in s.mappings.products
    requires Whole(s.woo)
    ensures Whole(ProductSync.LinkBySku(s, row, p, ProductSync.Sku(p), plan).shelf.woo)
  {
  }

  lemma LinkProductKeepsWhole(s: Shelf, p: OdooProduct, plan: ProductSync.ProductPlan)
    requires Whole(s.woo)
    ensures Whole(ProductSync.LinkProduct(s, p, ProductSync.Sku(p), plan).shelf.woo)
  {
    ProductSync.FoundRowIsClaimed(s.mappings.products, p);
    match ProductSync.ProductRowOf(s.mappings.products, p, ProductSync.Sku(p)) {
      case None => LinkBySkuKeepsWhole(s, None, p, plan);
      case Some(i) =>
        var fixed := ProductSync.Corrected(s, i, p, ProductSync.Sku(p));
        LinkBySkuKeepsWhole(fixed, Some(i), p, plan);
        LinkBySkuKeepsWhole(ProductSync.DropRow(fixed, i), None, p, plan);
    }
  }

  lemma SyncKeepsWhole(ps: seq<OdooProduct>, all: seq<OdooVariant>, durable: Mappings, s: Shelf, p: OdooProduct,
      plan: ProductSync.ProductPlan)
    requires Whole(s.woo) && ProductSync.CatalogueShelf(ps, all, durable, s) && p in ps
    ensures Whole(ProductSync.SyncSingleProduct(s, all, p, plan).shelf.woo)
  {
    if ProductSync.ResolvedSku(p, plan) != "" && plan.build.None? {
      var link := ProductSync.LinkProduct(s, p, ProductSync.Sku(p), plan);
      LinkProductKeepsWhole(s, p, plan);
      ProductSync.LinkProductGood(ps, all, durable, s, p, plan);
      if link.got.Done? && ProductSync.Kind(p).Variable? && plan.fetchVariants.None? {
        var i :| ProductSync.SettledBy(link.shelf, p, i, link.got.value.woo);
        ProductSync.ParentRowIsSettled(link.shelf, p, i, link.got.value.woo);
        VariantSync.ActiveVariantsAre(all, p.id);
        SyncVariantsKeepWhole(all, durable, link.shelf, VariantSync.ActiveVariants(all, p.id), link.got.value.woo,
          ProductSync.ParentRow(link.shelf, ProductSync.Sku(p)), plan.variants);
      }
    }
  }

  lemma {:induction false} PassKeepsWhole(ps: seq<OdooProduct>, all: seq<OdooVariant>, durable: Mappings, s: Shelf,
      qs: seq<OdooProduct>, plans: seq<ProductSync.ProductPlan>)
    requires Whole(s.woo) && CatalogueFrames.CatalogueSound(ps, all, durable, s) && forall q :: q in qs ==> q in ps
    ensures Whole(CataloguePass.Pass(s, all, qs, plans).shelf.woo)
  {
    if qs != [] {
      var n := |qs| - 1;
      var before := CataloguePass.Pass(s, all, qs[..n], plans).shelf;
      PassKeepsWhole(ps, all, durable, s, qs[..n], plans);
      assert ProductSync.CatalogueShelf(ps, all, durable, before) by {
        CataloguePass.PassKeepsSound(ps, all, durable, s, qs[..n], plans);
      }
      SyncKeepsWhole(ps, all, durable, before, qs[n], CataloguePass.PlanOf(plans, n));
      CataloguePass.PassLast(s, all, qs, plans);
    }
  }

  lemma StepKeepsWhole(cfg: Config, w: World, op: Op)
    requires Consistent(cfg, w) && Whole(w.woo) && !op.VariationOp?
    ensures Whole(Step(cfg, w, op).woo)
  {
    if !op.ShopOp? {
      var b := BatchOf(cfg, w, op);
      BatchIsOfTemplates(cfg, w, op);
      PassKeepsWhole(cfg.templates, cfg.variants, w.committed.mappings, ShelfOf(w), b.products, b.plans);
      StepIsBatch(cfg, w, op);
    }
  }

  lemma {:induction false} RunKeepsWhole(cfg: Config, w: World, ops: seq<Op>)
    requires Consistent(cfg, w) && Whole(w.woo)
    requires forall k :: 0 <= k < |ops| ==> !ops[k].VariationOp?
    ensures Whole(Run(cfg, w, ops).woo)
  {
    if ops != [] {
      var n := |ops| - 1;
      RunKeepsWhole(cfg, w, ops[..n]);
      RunConsistent(cfg, w, ops[..n]);
      StepKeepsWhole(cfg, Run(cfg, w, ops[..n]), ops[n]);
    }
  }

  /** While nobody deletes a single variation, no variant is ever lost, whatever fails and whichever products go. */
  lemma NeverLost(cfg: Config, w: World, ops: seq<Op>, v: OdooVariant)
    requires Consistent(cfg, w) && Whole(w.woo)
    requires forall k :: 0 <= k < |ops| ==> !ops[k].VariationOp?
    ensures !CataloguePass.Lost(ShelfOf(Run(cfg, w, ops)), v)
  {
    RunKeepsWhole(cfg, w, ops);
    RunConsistent(cfg, w, ops);
    WholeLosesNone(ShelfOf(Run(cfg, w, ops)), v);
  }

  /** Deleting the variation that mirrors v loses v. */
  lemma DeletedVariationIsLost(cfg: Config, w: World, v: OdooVariant, x: Id, i: nat)
    requires Consistent(cfg, w) && VariantSync.MirroredBy(ShelfOf(w), v, x, i)
    ensures CataloguePass.Lost(ShelfOf(Step(cfg, w, VariationOp(w.working.mappings.variants[i].woo.value))), v)
  {
    var z := w.working.mappings.variants[i].woo.value;
    assert CataloguePass.LostBy(ShelfOf(Step(cfg, w, VariationOp(z))), v, i);
  }
}
