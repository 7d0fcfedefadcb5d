/** What order lines and inventory can rely on: mapped variants are found, and settled rows can be stocked. */
module CatalogueConsumers {
  import opened Outcomes
  import opened Tables
  import opened MappingRows
  import opened WooApi
  import opened Worlds
  import opened RetryQueue
  import opened Runs
  import opened CatalogueRuns
  import CrashRecovery
  import Inventory
  import OrderLines
  import VariationRuns

  // ---------- order lines ----------

  /** Both keys of every variant row are those of one variant of Odoo. */
  ghost predicate KeysTrue(all: seq<OdooVariant>, rows: map<nat, VariantRow>) {
    forall i :: i in rows ==> exists v :: VariantSync.IsListed(all, v) && rows[i].odoo == v.id && rows[i].sku == v.code
  }

  ghost predicate TrueKeys(cfg: Config, w: World) {
    KeysTrue(cfg.variants, w.working.mappings.variants) && KeysTrue(cfg.variants, w.committed.mappings.variants)
  }

  lemma {:induction false} SyncVariantsKeepKeys(all: seq<OdooVariant>, s: Shelf, vs: seq<OdooVariant>, product: Id,
      parent: nat,
      plans: seq<VariantSync.VariantPlan>)
    requires KeysTrue(all, s.mappings.variants) && forall v :: v in vs ==> v in all && v.active
    ensures KeysTrue(all, VariantSync.SyncVariants(s, vs, product, parent, plans).shelf.mappings.variants)
  {
    if vs != [] {
      var n := |vs| - 1;
      var before := VariantSync.SyncVariants(s, vs[..n], product, parent, plans).shelf;
      SyncVariantsKeepKeys(all, s, vs[..n], product, parent, plans);
      VariantSync.LastStep(s, vs, product, parent, plans);
      if vs[n].code != "" {
        CatalogueFrames.SyncVariantOnlyAdds(before, vs[n], product, parent, VariantSync.PlanOf(plans, n));
        AddingKeepsKeys(all, before.mappings, VariantSync.SyncVariants(s, vs, product, parent, plans).shelf.mappings, vs[n], parent);
      }
    }
  }

  lemma AddingKeepsKeys(all: seq<OdooVariant>, before: Mappings, after: Mappings, v: OdooVariant, parent: nat)
    requires KeysTrue(all, before.variants) && CatalogueFrames.OnlyAdds(before, after, v, parent) && VariantSync.IsListed(all, v)
    ensures KeysTrue(all, after.variants)
  {
  }

  lemma SyncKeepsKeys(all: seq<OdooVariant>, s: Shelf, p: OdooProduct, plan: ProductSync.ProductPlan)
    requires KeysTrue(all, s.mappings.variants)
    ensures KeysTrue(all, ProductSync.SyncSingleProduct(s, all, p, plan).shelf.mappings.variants)
  {
    if ProductSync.ResolvedSku(p, plan) != "" && plan.build.None? {
      var link := ProductSync.LinkProduct(s, p, ProductSync.Sku(p), plan);
      CatalogueFrames.LinkingAndVariants(s, p, plan);
      assert KeysTrue(all, link.shelf.mappings.variants);
      if link.got.Done? && ProductSync.Kind(p).Variable? && plan.fetchVariants.None? {
        VariantSync.ActiveVariantsAre(all, p.id);
        SyncVariantsKeepKeys(all, link.shelf, VariantSync.ActiveVariants(all, p.id), link.got.value.woo,
          ProductSync.ParentRow(link.shelf, ProductSync.Sku(p)), plan.variants);
      }
    }
  }

  lemma {:induction false} PassKeepsKeys(all: seq<OdooVariant>, s: Shelf, qs: seq<OdooProduct>,
      plans: seq<ProductSync.ProductPlan>)
    requires KeysTrue(all, s.mappings.variants)
    ensures KeysTrue(all, CataloguePass.Pass(s, all, qs, plans).shelf.mappings.variants)
  {
    if qs != [] {
      var n := |qs| - 1;
      PassKeepsKeys(all, s, qs[..n], plans);
      SyncKeepsKeys(all, CataloguePass.Pass(s, all, qs[..n], plans).shelf, qs[n], CataloguePass.PlanOf(plans, n));
      CataloguePass.PassLast(s, all, qs, plans);
    }
  }

  lemma MappingsMoveKeys(cfg: Config, w: World, after: World)
    requires TrueKeys(cfg, w) && MappingsMove(w, after)
    ensures TrueKeys(cfg, after)
  {
  }

  lemma StepKeepsKeys(cfg: Config, w: World, op: Op)
    requires TrueKeys(cfg, w)
    ensures TrueKeys(cfg, Step(cfg, w, op))
  {
    if !op.ShopOp? && !op.VariationOp? {
      var b := BatchOf(cfg, w, op);
      PassKeepsKeys(cfg.variants, ShelfOf(w), b.products, b.plans);
      StepIsBatch(cfg, w, op);
      MappingsMoveKeys(cfg, PutShelf(w, ShelfAfter(cfg, w, b)), Step(cfg, w, op));
    }
  }

  lemma {:induction false} RunKeepsKeys(cfg: Config, w: World, ops: seq<Op>)
    requires TrueKeys(cfg, w)
    ensures TrueKeys(cfg, Run(cfg, w, ops))
  {
    if ops != [] {
      var n := |ops| - 1;
      RunKeepsKeys(cfg, w, ops[..n]);
      StepKeepsKeys(cfg, Run(cfg, w, ops[..n]), ops[n]);
    }
  }

  lemma ListedCodesAreUnique(all: seq<OdooVariant>)
    requires VariantSync.DistinctVariants(all)
    ensures OrderLines.UniqueCodes(all)
  {
    forall i, j | 0 <= i < |all| && 0 <= j < |all| && all[i].active && all[j].active && all[i].code == all[j].code != "" ensures i == j {
      assert VariantSync.IsListed(all, all[i]) && VariantSync.IsListed(all, all[j]);
    }
  }

  /** In every state that a run reaches, the SKU of a mapped variant is answered with that variant and with what the
      direct search would answer, even while the searches of Odoo fail. */
  lemma MappedVariantIsFound(cfg: Config, w: World, ops: seq<Op>, look: OrderLines.Lookup, v: OdooVariant, i: nat)
    requires Consistent(cfg, w) && TrueKeys(cfg, w)
    requires look.mappings == Run(cfg, w, ops).working.mappings && look.variants == cfg.variants
    requires VariantSync.IsListed(cfg.variants, v) && i in look.mappings.variants && VariantSync.Owns(v, look.mappings.variants[i])
    ensures OrderLines.AnswerIsTrue(look, v.code)
    ensures OrderLines.FindOdooProductId(look, v.code) == Done(Some(v.id)) == Done(OrderLines.FirstWithCode(cfg.variants, v.code))
  {
    RunConsistent(cfg, w, ops);
    RunKeepsKeys(cfg, w, ops);
    ListedCodesAreUnique(cfg.variants);
    FoundByItsSku(cfg.variants, look, v, i);
    OrderLines.ThreeTiersAgree(look, v.code);
  }

  lemma FoundByItsSku(all: seq<OdooVariant>, look: OrderLines.Lookup, v: OdooVariant, i: nat)
    requires VariantSync.DistinctVariants(all) && VariantSync.VariantKeys(look.mappings.variants) && KeysTrue(all, look.mappings.variants)
    requires look.variants == all && VariantSync.IsListed(all, v)
    requires i in look.mappings.variants && VariantSync.Owns(v, look.mappings.variants[i])
    ensures OrderLines.FindOdooProductId(look, v.code) == Done(Some(v.id)) && OrderLines.AnswerIsTrue(look, v.code)
  {
    var rows := look.mappings.variants;
    var u :| VariantSync.IsListed(all, u) && rows[i].odoo == u.id && rows[i].sku == u.code;
    assert u == v;
    assert i in VariantsOfSku(rows, v.code);
    assert VariantBySku(rows, v.code) == Some(i);
    var k :| 0 <= k < |all| && all[k] == v;
    assert OrderLines.Carries(all, v.id, v.code);
  }

  // ---------- inventory ----------

  /** The stock slots of a shop are its products and variations. */
  ghost predicate SlotsOf(woo: Woo, stock: map<Inventory.Slot, int>) {
    && (forall x :: x in woo.products ==> Inventory.OfProduct(x) in stock)
    && (forall z :: z in woo.variations ==> Inventory.OfVariation(woo.variations[z].parent, z) in stock)
  }

  lemma SettledCanBeStocked(all: seq<OdooVariant>, s: Shelf, p: OdooProduct, i: nat, x: Id, stock: map<Inventory.Slot, int>)
    requires WooSound(s.woo) && VariationRuns.Whole(s.woo) && VariantSync.Parented(s.mappings, s.woo)
    requires ProductSync.SettledBy(s, p, i, x) && SlotsOf(s.woo, stock)
    ensures Inventory.InShop(all, s.mappings, i, stock)
  {
    forall w | Inventory.IsDue(all, s.mappings, i, w) ensures w.slot in stock {
      if s.mappings.products[i].kind.Variable? {
        var j :| Inventory.IsDueFor(all, s.mappings, i, x, j, w);
        var z := s.mappings.variants[j].woo.value;
        assert s.woo.madeUnder[z] == x && z in s.woo.variations;
      }
    }
  }

  lemma RecoveredIsWhole(cfg: Config, w: World, ops: seq<Op>, plans: seq<ProductSync.ProductPlan>, now: int)
    requires Consistent(cfg, w) && VariationRuns.Whole(w.woo)
    requires forall k :: 0 <= k < |ops| ==> !ops[k].VariationOp?
    ensures VariationRuns.Whole(CrashRecovery.Recovered(cfg, w, ops, plans, now).woo)
  {
    var ran := Run(cfg, w, ops);
    VariationRuns.RunKeepsWhole(cfg, w, ops);
    RunConsistent(cfg, w, ops);
    StepConsistent(cfg, ran, CloseOp);
    VariationRuns.StepKeepsWhole(cfg, ran, CloseOp);
    VariationRuns.StepKeepsWhole(cfg, Step(cfg, ran, CloseOp), PassOp(|cfg.templates|, plans, now, true));
  }

  /** After a run without deletions of single variations, and a pass without failures, the shop has a slot for
      everything that the row of any template owes: no call of a stock run for it can be answered 404. */
  lemma RecoveredCanBeStocked(cfg: Config, w: World, ops: seq<Op>, plans: seq<ProductSync.ProductPlan>, now: int,
      p: OdooProduct, stock: map<Inventory.Slot, int>)
    requires Consistent(cfg, w) && VariationRuns.Whole(w.woo) && CataloguePass.AllSmooth(plans)
    requires forall k :: 0 <= k < |ops| ==> !ops[k].VariationOp?
    requires ProductSync.IsSold(cfg.templates, p)
    requires SlotsOf(CrashRecovery.Recovered(cfg, w, ops, plans, now).woo, stock)
    ensures var m := CrashRecovery.Recovered(cfg, w, ops, plans, now).working.mappings;
      exists i :: Inventory.IsSynced(m, i) && m.products[i].odoo == p.id && Inventory.InShop(cfg.variants, m, i, stock)
  {
    var end := CrashRecovery.Recovered(cfg, w, ops, plans, now);
    RecoveredIsWhole(cfg, w, ops, plans, now);
    RecoveryConverges(cfg, w, ops, plans, now);
    var closed := Step(cfg, Run(cfg, w, ops), CloseOp);
    var i, x :| CataloguePass.DoneFor(ShelfOf(closed), ShelfOf(end), cfg.variants, p, i, x);
    SettledCanBeStocked(cfg.variants, ShelfOf(end), p, i, x, stock);
    assert Inventory.IsSynced(end.working.mappings, i);
  }
}
