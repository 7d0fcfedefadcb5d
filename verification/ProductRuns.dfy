/** Products over every run: unique SKUs, and how many are made too many. */
module ProductRuns {
  import opened Outcomes
  import opened WooApi
  import opened Worlds
  import opened RetryQueue
  import opened Runs
  import opened CatalogueRuns
  import opened Heritage
  import opened ProductSkus

  ghost predicate ProductsUnrivalled(cfg: Config, w: World) {
    Unrivalled(cfg.templates, ShelfOf(w))
  }

  /** How many products too many the operation makes: see ProductSkus.Duplicates. */
  ghost function StepSurplus(cfg: Config, w: World, op: Op): nat {
    PassSurplus(ShelfOf(w), cfg.variants, BatchOf(cfg, w, op).products, BatchOf(cfg, w, op).plans)
  }

  ghost function RunSurplus(cfg: Config, w: World, ops: seq<Op>): nat {
    if ops == [] then 0
    else
      var n := |ops| - 1;
      RunSurplus(cfg, w, ops[..n]) + StepSurplus(cfg, Run(cfg, w, ops[..n]), ops[n])
  }

  lemma MappingsMoveUnrivalled(cfg: Config, w: World, after: World)
    requires Consistent(cfg, w) && ProductsUnrivalled(cfg, w) && MappingsMove(w, after)
    ensures ProductsUnrivalled(cfg, after)
  {
    RollbackKeepsUnrivalled(cfg.templates, cfg.variants, w.committed.mappings, ShelfOf(w));
    assert after.working.mappings == w.working.mappings ==> ShelfOf(after) == ShelfOf(w);
    assert after.working.mappings == w.committed.mappings ==>
      ShelfOf(after) == RolledBack(w.committed.mappings, ShelfOf(w));
  }

  lemma VariationDeletionUnrivalled(cfg: Config, s: Shelf, gone: Id)
    requires Unrivalled(cfg.templates, s)
    ensures Unrivalled(cfg.templates, s.(woo := DeleteVariation(s.woo, gone)))
  {
    var after := s.(woo := DeleteVariation(s.woo, gone));
    forall q, x ensures CatalogueFrames.Concerns(after, q, x) <==> CatalogueFrames.Concerns(s, q, x) {
      assert ProductSync.Carries(after.woo, x, q) <==> ProductSync.Carries(s.woo, x, q);
    }
  }

  lemma StepKeepsUnrivalled(cfg: Config, w: World, op: Op)
    requires Consistent(cfg, w) && ProductsUnrivalled(cfg, w) && StepSurplus(cfg, w, op) == 0
    ensures ProductsUnrivalled(cfg, Step(cfg, w, op))
  {
    match op {
      case ShopOp(gone) =>
        DeletionKeepsUnrivalled(cfg.templates, ShelfOf(w), gone);
        assert ShelfOf(Step(cfg, w, op)) == ShelfOf(w).(woo := DeleteProduct(w.woo, gone));
      case VariationOp(gone) =>
        VariationDeletionUnrivalled(cfg, ShelfOf(w), gone);
        assert ShelfOf(Step(cfg, w, op)) == ShelfOf(w).(woo := DeleteVariation(w.woo, gone));
      case _ =>
        var b := BatchOf(cfg, w, op);
        BatchIsOfTemplates(cfg, w, op);
        PassKeepsUnrivalled(cfg.templates, cfg.variants, w.committed.mappings, ShelfOf(w), b.products, b.plans);
        CataloguePass.PassKeepsSound(cfg.templates, cfg.variants, w.committed.mappings, ShelfOf(w), b.products, b.plans);
        StepIsBatch(cfg, w, op);
        MappingsMoveUnrivalled(cfg, PutShelf(w, ShelfAfter(cfg, w, b)), Step(cfg, w, op));
    }
  }

  /** Over every run that makes no product too many, whatever else fails, crashes or is deleted, no two products of
      the shop share the SKU of a template, and every row is linked to the one that carries it. */
  lemma {:induction false} RunKeepsUnrivalled(cfg: Config, w: World, ops: seq<Op>)
    requires Consistent(cfg, w) && ProductsUnrivalled(cfg, w) && RunSurplus(cfg, w, ops) == 0
    ensures ProductsUnrivalled(cfg, Run(cfg, w, ops))
    ensures ProductSync.UniqueSkus(cfg.templates, Run(cfg, w, ops).woo)
  {
    if ops != [] {
      var n := |ops| - 1;
      RunKeepsUnrivalled(cfg, w, ops[..n]);
      RunConsistent(cfg, w, ops[..n]);
      StepKeepsUnrivalled(cfg, Run(cfg, w, ops[..n]), ops[n]);
    }
    UnrivalledIsUnique(cfg.templates, ShelfOf(Run(cfg, w, ops)));
  }
}
