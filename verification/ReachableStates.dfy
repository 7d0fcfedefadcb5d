/** The invariants of all runs, put together: they hold of a new platform, hence of every reachable state. */
module ReachableStates {
  import opened Tables
  import opened OdooApi
  import opened Worlds
  import opened OrderSync
  import opened RetryQueue
  import opened Runs
  import opened OrderRuns
  import opened QueueRuns
  import opened CatalogueRuns
  import opened CatalogueConsumers
  import opened VariationRuns
  import opened VariationSkus
  import CrashRecovery
  import Heritage
  import JobRuns
  import ProductRuns

  /** What is asked of Odoo and the shop on the first day: ids below the next one, no two templates with the same
      SKU, and no two variants with the same SKU. */
  ghost predicate CanStart(cfg: Config, odoo: Odoo, woo: Woo) {
    && 1 <= cfg.maxRetries
    && WellFormed(odoo)
    && WooApi.WooSound(woo)
    && ProductSync.DistinctProducts(cfg.templates)
    && VariantSync.DistinctVariants(cfg.variants)
  }

  ghost predicate PlatformSound(cfg: Config, w: World) {
    && OrdersSound(w)
    && JobsBounded(w) && JobRuns.KeysSettled(w)
    && Remembered(w.working) && Remembered(w.committed)
    && AllLively(w.working.jobs) && AllLively(w.committed.jobs)
    && Consistent(cfg, w)
  }

  lemma NewPlatformIsSound(cfg: Config, odoo: Odoo, woo: Woo)
    requires CanStart(cfg, odoo, woo)
    ensures PlatformSound(cfg, NewPlatform(odoo, woo)) && QueueSound(cfg, NewPlatform(odoo, woo))
  {
  }

  /** Every reachable state: all invariants at once, and the account of sale orders for every order that
      Odoo did not know on the first day. */
  lemma EveryReachableState(cfg: Config, odoo: Odoo, woo: Woo, ops: seq<Op>)
    requires CanStart(cfg, odoo, woo)
    ensures var end := Run(cfg, NewPlatform(odoo, woo), ops);
      && PlatformSound(cfg, end)
      && (IsAutomaticRun(cfg, NewPlatform(odoo, woo), ops) ==> QueueSound(cfg, end))
      && forall order :: Created(odoo, order) == {} ==>
           |Created(end.odoo, order)| == Bit(IsSynced(end.committed, order))
             + LeavingIn(cfg, NewPlatform(odoo, woo), ops, order) + OrphaningIn(cfg, NewPlatform(odoo, woo), ops, order)
  {
    var start := NewPlatform(odoo, woo);
    NewPlatformIsSound(cfg, odoo, woo);
    RunOrdersSound(cfg, start, ops);
    JobRuns.RunCounts(cfg, start, ops);
    NoFailureForgotten(cfg, start, ops);
    LifeCycle(cfg, start, ops);
    RunConsistent(cfg, start, ops);
    if IsAutomaticRun(cfg, start, ops) {
      Schedule(cfg, start, ops);
    }
    forall order | Created(odoo, order) == {}
      ensures |Created(Run(cfg, start, ops).odoo, order)|
        == Bit(IsSynced(Run(cfg, start, ops).committed, order)) + LeavingIn(cfg, start, ops, order) + OrphaningIn(cfg, start, ops, order) {
      SaleOrderAccount(cfg, start, ops, order);
    }
  }

  /** Of products in every reachable state: SKUs stay unique unless a creation was sent again after it took effect; and
      while nobody deletes products, there are those of the first day, one for each template that needed one and got
      it, and the surplus of such creations. */
  lemma EveryReachableProduct(cfg: Config, odoo: Odoo, woo: Woo, ops: seq<Op>)
    requires CanStart(cfg, odoo, woo)
    ensures var start := NewPlatform(odoo, woo);
      var end := Run(cfg, start, ops);
      && (ProductSync.UniqueSkus(cfg.templates, woo) && ProductRuns.RunSurplus(cfg, start, ops) == 0 ==>
            ProductSync.UniqueSkus(cfg.templates, end.woo) && Heritage.Unrivalled(cfg.templates, ShelfOf(end)))
      && ((forall k :: 0 <= k < |ops| ==> !ops[k].ShopOp?) ==>
            |end.woo.products.Keys|
            == |woo.products.Keys| + CrashRecovery.MetIn(cfg, ShelfOf(start), end) + ProductRuns.RunSurplus(cfg, start, ops))
  {
    var start := NewPlatform(odoo, woo);
    NewPlatformIsSound(cfg, odoo, woo);
    if ProductSync.UniqueSkus(cfg.templates, woo) && ProductRuns.RunSurplus(cfg, start, ops) == 0 {
      ProductRuns.RunKeepsUnrivalled(cfg, start, ops);
    }
    if forall k :: 0 <= k < |ops| ==> !ops[k].ShopOp? {
      Heritage.InheritsRefl(cfg.templates, ShelfOf(start));
      CrashRecovery.ProductAccount(cfg, ShelfOf(start), start, ops);
      CrashRecovery.NoneMetYet(ShelfOf(start), cfg.templates);
    }
  }

  /** And of variants and variations in every reachable state: rows name the variant they were made for; SKUs stay
      unique unless the one doubling branch was taken; nothing is lost unless a single variation was deleted. */
  lemma EveryReachableVariation(cfg: Config, odoo: Odoo, woo: Woo, ops: seq<Op>)
    requires CanStart(cfg, odoo, woo)
    ensures var start := NewPlatform(odoo, woo);
      var end := Run(cfg, start, ops);
      && TrueKeys(cfg, end)
      && (UniqueVariations(cfg.variants, woo) && !RunDoubles(cfg, start, ops) ==> VariationsUnique(cfg, end))
      && (Whole(woo) && (forall k :: 0 <= k < |ops| ==> !ops[k].VariationOp?) ==> forall v :: !CataloguePass.Lost(ShelfOf(end), v))
  {
    var start := NewPlatform(odoo, woo);
    NewPlatformIsSound(cfg, odoo, woo);
    RunKeepsKeys(cfg, start, ops);
    if UniqueVariations(cfg.variants, woo) && !RunDoubles(cfg, start, ops) {
      RunKeepsUnique(cfg, start, ops);
    }
    if Whole(woo) && forall k :: 0 <= k < |ops| ==> !ops[k].VariationOp? {
      forall v ensures !CataloguePass.Lost(ShelfOf(Run(cfg, start, ops)), v) {
        NeverLost(cfg, start, ops, v);
      }
    }
  }
}
