/** Interrupted runs: whatever was lost or reported as failed, a later pass ends where an undisturbed one would have. */
module CrashRecovery {
  import opened Outcomes
  import opened Tables
  import opened WooApi
  import opened Worlds
  import opened RetryQueue
  import opened Runs
  import opened CatalogueRuns
  import opened Heritage
  import opened ProductRuns
  import ProductSkus
  import VariationRuns

  ghost predicate Heir(cfg: Config, origin: Shelf, w: World) {
    Inherits(cfg.templates, origin, w.committed.mappings, ShelfOf(w))
  }

  lemma CommitInherits(ps: seq<OdooProduct>, origin: Shelf, durable: Mappings, s: Shelf)
    requires Inherits(ps, origin, durable, s)
    ensures Inherits(ps, origin, s.mappings, s)
  {
    assert RolledBack(s.mappings, s) == s;
  }

  lemma RollbackInherits(ps: seq<OdooProduct>, origin: Shelf, durable: Mappings, s: Shelf)
    requires Inherits(ps, origin, durable, s)
    ensures Inherits(ps, origin, durable, s.(mappings := durable))
  {
    assert RolledBack(durable, s.(mappings := durable)) == RolledBack(durable, s) == s.(mappings := durable);
  }

  lemma MappingsMoveInherits(cfg: Config, origin: Shelf, w: World, after: World)
    requires Heir(cfg, origin, w) && MappingsMove(w, after)
    ensures Heir(cfg, origin, after)
  {
    CommitInherits(cfg.templates, origin, w.committed.mappings, ShelfOf(w));
    RollbackInherits(cfg.templates, origin, w.committed.mappings, ShelfOf(w));
    CommitInherits(cfg.templates, origin, w.committed.mappings, ShelfOf(w).(mappings := w.committed.mappings));
    assert after.working.mappings == w.working.mappings ==> ShelfOf(after) == ShelfOf(w);
    assert after.working.mappings == w.committed.mappings ==>
      ShelfOf(after) == ShelfOf(w).(mappings := w.committed.mappings);
  }

  lemma VariationDeletionInherits(ps: seq<OdooProduct>, origin: Shelf, durable: Mappings, s: Shelf, gone: Id)
    requires Inherits(ps, origin, durable, s)
    ensures Inherits(ps, origin, durable, s.(woo := DeleteVariation(s.woo, gone)))
  {
    var after := s.(woo := DeleteVariation(s.woo, gone));
    forall q, x ensures ProductSync.Carries(after.woo, x, q) <==> ProductSync.Carries(s.woo, x, q) {
    }
    forall q, x ensures CatalogueFrames.Concerns(after, q, x) <==> CatalogueFrames.Concerns(s, q, x)
      ensures CatalogueFrames.Concerns(RolledBack(durable, after), q, x) <==> CatalogueFrames.Concerns(RolledBack(durable, s), q, x) {
    }
  }

  lemma StepInherits(cfg: Config, origin: Shelf, w: World, op: Op)
    requires Consistent(cfg, w) && Heir(cfg, origin, w) && !op.ShopOp?
    ensures Heir(cfg, origin, Step(cfg, w, op))
  {
    if op.VariationOp? {
      VariationDeletionInherits(cfg.templates, origin, w.committed.mappings, ShelfOf(w), op.gone);
      assert ShelfOf(Step(cfg, w, op)) == ShelfOf(w).(woo := DeleteVariation(w.woo, op.gone));
    } else {
      var b := BatchOf(cfg, w, op);
      BatchIsOfTemplates(cfg, w, op);
      CataloguePass.PassInherits(cfg.templates, cfg.variants, w.committed.mappings, origin, ShelfOf(w), b.products, b.plans);
      StepIsBatch(cfg, w, op);
      MappingsMoveInherits(cfg, origin, PutShelf(w, ShelfAfter(cfg, w, b)), Step(cfg, w, op));
    }
  }

  lemma {:induction false} RunInherits(cfg: Config, origin: Shelf, w: World, ops: seq<Op>)
    requires Consistent(cfg, w) && Heir(cfg, origin, w)
    requires forall k :: 0 <= k < |ops| ==> !ops[k].ShopOp?
    ensures Heir(cfg, origin, Run(cfg, w, ops))
  {
    if ops != [] {
      var n := |ops| - 1;
      RunInherits(cfg, origin, w, ops[..n]);
      RunConsistent(cfg, w, ops[..n]);
      StepInherits(cfg, origin, Run(cfg, w, ops[..n]), ops[n]);
    }
  }

  // ---------- how many products there are ----------

  /** Templates that got the product they needed at the origin. */
  ghost function MetIn(cfg: Config, origin: Shelf, w: World): nat {
    ProductSkus.Met(origin, ShelfOf(w), cfg.templates)
  }

  lemma MappingsMoveMet(cfg: Config, origin: Shelf, w: World, after: World)
    requires Heir(cfg, origin, w) && MappingsMove(w, after)
    ensures MetIn(cfg, origin, after) == MetIn(cfg, origin, w)
  {
    if after.working.mappings == w.working.mappings {
      assert ShelfOf(after) == ShelfOf(w);
    } else {
      assert ShelfOf(after) == RolledBack(w.committed.mappings, ShelfOf(w));
      forall q | ProductSync.IsSold(cfg.templates, q) ensures NeedsProduct(ShelfOf(w), q) <==> NeedsProduct(ShelfOf(after), q) {
        ProductSkus.RollbackKeepsNeeds(cfg.templates, origin, w.committed.mappings, ShelfOf(w), q);
      }
      ProductSkus.SameNeedsSameMet(origin, ShelfOf(w), ShelfOf(after), cfg.templates);
    }
  }

  lemma VariationDeletionMet(cfg: Config, origin: Shelf, w: World, gone: Id)
    ensures MetIn(cfg, origin, Step(cfg, w, VariationOp(gone))) == MetIn(cfg, origin, w)
  {
    var s, after := ShelfOf(w), ShelfOf(Step(cfg, w, VariationOp(gone)));
    forall q, x ensures CatalogueFrames.Concerns(after, q, x) <==> CatalogueFrames.Concerns(s, q, x) {
      assert ProductSync.Carries(after.woo, x, q) <==> ProductSync.Carries(s.woo, x, q);
    }
    ProductSkus.SameNeedsSameMet(origin, s, after, cfg.templates);
  }

  lemma StepAccount(cfg: Config, origin: Shelf, w: World, op: Op)
    requires Consistent(cfg, w) && Heir(cfg, origin, w) && !op.ShopOp?
    ensures var after := Step(cfg, w, op);
      |after.woo.products.Keys| + MetIn(cfg, origin, w) == |w.woo.products.Keys| + MetIn(cfg, origin, after) + StepSurplus(cfg, w, op)
  {
    if op.VariationOp? {
      VariationDeletionMet(cfg, origin, w, op.gone);
    } else {
      var b := BatchOf(cfg, w, op);
      BatchIsOfTemplates(cfg, w, op);
      ProductSkus.PassAccount(cfg.templates, cfg.variants, origin, w.committed.mappings, ShelfOf(w), b.products, b.plans);
      CataloguePass.PassInherits(cfg.templates, cfg.variants, w.committed.mappings, origin, ShelfOf(w), b.products, b.plans);
      StepIsBatch(cfg, w, op);
      MappingsMoveMet(cfg, origin, PutShelf(w, ShelfAfter(cfg, w, b)), Step(cfg, w, op));
    }
  }

  /** The exact account of products: those there were, one for each template that needed one and got it, and those
      that a creation sent again after it took effect has made too many. */
  lemma {:induction false} ProductAccount(cfg: Config, origin: Shelf, w: World, ops: seq<Op>)
    requires Consistent(cfg, w) && Heir(cfg, origin, w)
    requires forall k :: 0 <= k < |ops| ==> !ops[k].ShopOp?
    ensures var end := Run(cfg, w, ops);
      |end.woo.products.Keys| + MetIn(cfg, origin, w) == |w.woo.products.Keys| + MetIn(cfg, origin, end) + RunSurplus(cfg, w, ops)
  {
    if ops != [] {
      var n := |ops| - 1;
      var before := Run(cfg, w, ops[..n]);
      ProductAccount(cfg, origin, w, ops[..n]);
      assert Consistent(cfg, before) && Heir(cfg, origin, before) by {
        RunInherits(cfg, origin, w, ops[..n]);
        RunConsistent(cfg, w, ops[..n]);
      }
      StepAccount(cfg, origin, before, ops[n]);
      assert RunSurplus(cfg, w, ops) == RunSurplus(cfg, w, ops[..n]) + StepSurplus(cfg, before, ops[n]);
    }
  }

  lemma {:induction false} NoneMetYet(origin: Shelf, qs: seq<OdooProduct>)
    ensures ProductSkus.Met(origin, origin, qs) == 0
  {
    if qs != [] {
      NoneMetYet(origin, qs[..|qs| - 1]);
    }
  }

  // ---------- recovery ----------

  /** An interrupted run, recovered: the session is lost, then one pass without failures. */
  function Recovered(cfg: Config, w: World, ops: seq<Op>, plans: seq<ProductSync.ProductPlan>, now: int): World {
    Step(cfg, Step(cfg, Run(cfg, w, ops), CloseOp), PassOp(|cfg.templates|, plans, now, true))
  }

  lemma ConvergedIsMet(cfg: Config, origin: Shelf, start: Shelf, end: World)
    requires ConvergedFrom(cfg, start, ShelfOf(end))
    ensures AllLinked(cfg.templates, ShelfOf(end))
    ensures MetIn(cfg, origin, end) == Needed(origin, cfg.templates)
  {
    forall p | ProductSync.IsSold(cfg.templates, p) ensures !NeedsProduct(ShelfOf(end), p) {
      var i, x :| ProductSync.SettledBy(ShelfOf(end), p, i, x);
      assert ProductSync.Carries(end.woo, x, p) && CatalogueFrames.Concerns(ShelfOf(end), p, x);
    }
    ProductSkus.AllMet(origin, ShelfOf(end), cfg.templates);
  }

  lemma TwoStepsInherit(cfg: Config, origin: Shelf, w: World, a: Op, b: Op)
    requires Consistent(cfg, w) && Heir(cfg, origin, w) && !a.ShopOp? && !b.ShopOp?
    requires StepSurplus(cfg, w, a) == StepSurplus(cfg, Step(cfg, w, a), b) == 0
    ensures var end := Step(cfg, Step(cfg, w, a), b);
      && Heir(cfg, origin, end)
      && |end.woo.products.Keys| + MetIn(cfg, origin, w) == |w.woo.products.Keys| + MetIn(cfg, origin, end)
  {
    StepInherits(cfg, origin, w, a);
    StepConsistent(cfg, w, a);
    StepAccount(cfg, origin, w, a);
    StepInherits(cfg, origin, Step(cfg, w, a), b);
    StepAccount(cfg, origin, Step(cfg, w, a), b);
  }

  lemma RecoveryInherits(cfg: Config, origin: Shelf, w: World, plans: seq<ProductSync.ProductPlan>, now: int)
    requires Consistent(cfg, w) && Heir(cfg, origin, w) && CataloguePass.AllSmooth(plans)
    ensures var end := Step(cfg, Step(cfg, w, CloseOp), PassOp(|cfg.templates|, plans, now, true));
      && Heir(cfg, origin, end)
      && |end.woo.products.Keys| + MetIn(cfg, origin, w) == |w.woo.products.Keys| + MetIn(cfg, origin, end)
  {
    var pass := PassOp(|cfg.templates|, plans, now, true);
    assert StepSurplus(cfg, w, CloseOp) == 0;
    assert StepSurplus(cfg, Step(cfg, w, CloseOp), pass) == 0 by {
      ProductSkus.SmoothPassHasNoSurplus(ShelfOf(Step(cfg, w, CloseOp)), cfg.variants,
        BatchOf(cfg, Step(cfg, w, CloseOp), pass).products, plans);
    }
    TwoStepsInherit(cfg, origin, w, CloseOp, pass);
  }

  /** Measured from before the interrupted run: each template ends on a product that was its business, else on a new
      one, nothing else of the shop is touched, and the number of products is exact. */
  lemma RecoveredAdopts(cfg: Config, w: World, ops: seq<Op>, plans: seq<ProductSync.ProductPlan>, now: int)
    requires Consistent(cfg, w) && w.working.mappings == w.committed.mappings && CataloguePass.AllSmooth(plans)
    requires forall k :: 0 <= k < |ops| ==> !ops[k].ShopOp?
    ensures var end := Recovered(cfg, w, ops, plans, now);
      && Consistent(cfg, end) && end.committed == end.working
      && Adopts(cfg.templates, ShelfOf(w), ShelfOf(end))
      && |end.woo.products.Keys| == |w.woo.products.Keys| + Needed(ShelfOf(w), cfg.templates) + RunSurplus(cfg, w, ops)
  {
    var origin := ShelfOf(w);
    var end := Recovered(cfg, w, ops, plans, now);
    InheritsRefl(cfg.templates, origin);
    RunInherits(cfg, origin, w, ops);
    RunConsistent(cfg, w, ops);
    ProductAccount(cfg, origin, w, ops);
    NoneMetYet(origin, cfg.templates);
    RecoveryInherits(cfg, origin, Run(cfg, w, ops), plans, now);
    RecoveryConverges(cfg, w, ops, plans, now);
    ConvergedIsMet(cfg, origin, ShelfOf(Step(cfg, Run(cfg, w, ops), CloseOp)), end);
    SettledHeritage(cfg.templates, cfg.variants, origin, end.committed.mappings, ShelfOf(end));
  }

  lemma StraightIsRecovered(cfg: Config, w: World, plans: seq<ProductSync.ProductPlan>, now: int)
    requires w.working.mappings == w.committed.mappings
    ensures ShelfOf(Recovered(cfg, w, [], plans, now)) == ShelfOf(Step(cfg, w, PassOp(|cfg.templates|, plans, now, true)))
  {
    FullPassIsPass(cfg, w, plans, now);
    FullPassIsPass(cfg, Step(cfg, w, CloseOp), plans, now);
    assert ShelfOf(Step(cfg, w, CloseOp)) == ShelfOf(w);
  }

  /** Crash recovery: whatever happened in between, short of deleting products in the shop, the recovered platform
      links every SKU as an undisturbed pass would have: to the very product that was there, else to a new one.  It
      has the same number of products, but for those that a creation sent again has made too many. */
  lemma SameAsUninterrupted(cfg: Config, w: World, ops: seq<Op>, plans: seq<ProductSync.ProductPlan>,
      undisturbed: seq<ProductSync.ProductPlan>, now: int)
    requires Consistent(cfg, w) && w.working.mappings == w.committed.mappings && ProductsUnrivalled(cfg, w)
    requires CataloguePass.AllSmooth(plans) && CataloguePass.AllSmooth(undisturbed)
    requires forall k :: 0 <= k < |ops| ==> !ops[k].ShopOp?
    ensures var end := Recovered(cfg, w, ops, plans, now);
      var straight := Step(cfg, w, PassOp(|cfg.templates|, undisturbed, now, true));
      && SameLinkage(cfg.templates, ShelfOf(w), ShelfOf(end), ShelfOf(straight))
      && Adopts(cfg.templates, ShelfOf(w), ShelfOf(end))
      && |end.woo.products.Keys| == |straight.woo.products.Keys| + RunSurplus(cfg, w, ops)
  {
    RecoveredAdopts(cfg, w, ops, plans, now);
    RecoveredAdopts(cfg, w, [], undisturbed, now);
    StraightIsRecovered(cfg, w, undisturbed, now);
    AdoptersAgree(cfg.templates, ShelfOf(w), ShelfOf(Recovered(cfg, w, ops, plans, now)),
      ShelfOf(Recovered(cfg, w, [], undisturbed, now)));
  }

  /** And its variants: under the product that their template ends linked to, the recovered platform mirrors those that
      were not lost when it was recovered, and the undisturbed one those that were not lost at the start.  While nobody
      deletes a single variation these are all of them. */
  lemma SameVariants(cfg: Config, w: World, ops: seq<Op>, plans: seq<ProductSync.ProductPlan>,
      undisturbed: seq<ProductSync.ProductPlan>, now: int, p: OdooProduct, v: OdooVariant)
      returns (x: Id, y: Id)
    requires Consistent(cfg, w)
    requires CataloguePass.AllSmooth(plans) && CataloguePass.AllSmooth(undisturbed)
    requires ProductSync.IsSold(cfg.templates, p) && CataloguePass.IsVariantOf(cfg.variants, v, p)
    ensures var end := ShelfOf(Recovered(cfg, w, ops, plans, now));
      var straight := ShelfOf(Step(cfg, w, PassOp(|cfg.templates|, undisturbed, now, true)));
      && (exists i :: ProductSync.SettledBy(end, p, i, x)) && (exists j :: ProductSync.SettledBy(straight, p, j, y))
      && (VariantSync.Mirrored(end, v, x) <==> !CataloguePass.Lost(ShelfOf(Step(cfg, Run(cfg, w, ops), CloseOp)), v))
      && (VariantSync.Mirrored(straight, v, y) <==> !CataloguePass.Lost(ShelfOf(w), v))
      && (VariationRuns.Whole(w.woo) && (forall k :: 0 <= k < |ops| ==> !ops[k].VariationOp?) ==>
            VariantSync.Mirrored(end, v, x) && VariantSync.Mirrored(straight, v, y))
  {
    var closed := Step(cfg, Run(cfg, w, ops), CloseOp);
    var end := ShelfOf(Recovered(cfg, w, ops, plans, now));
    var straight := ShelfOf(Step(cfg, w, PassOp(|cfg.templates|, undisturbed, now, true)));
    RecoveryConverges(cfg, w, ops, plans, now);
    x := DoneSomewhere(cfg, ShelfOf(closed), end, p, v);
    FullPassIsPass(cfg, w, undisturbed, now);
    PassIsConvergence(cfg, w.committed.mappings, ShelfOf(w), undisturbed);
    y := DoneSomewhere(cfg, ShelfOf(w), straight, p, v);
    if VariationRuns.Whole(w.woo) && forall k :: 0 <= k < |ops| ==> !ops[k].VariationOp? {
      ClosedLosesNone(cfg, w, ops, v);
      VariationRuns.WholeLosesNone(ShelfOf(w), v);
    }
  }

  lemma DoneSomewhere(cfg: Config, start: Shelf, end: Shelf, p: OdooProduct, v: OdooVariant) returns (x: Id)
    requires ConvergedFrom(cfg, start, end)
    requires ProductSync.IsSold(cfg.templates, p) && CataloguePass.IsVariantOf(cfg.variants, v, p)
    ensures (exists i :: ProductSync.SettledBy(end, p, i, x)) && (VariantSync.Mirrored(end, v, x) <==> !CataloguePass.Lost(start, v))
  {
    var i, y :| CataloguePass.DoneFor(start, end, cfg.variants, p, i, y);
    x := y;
  }

  lemma ClosedLosesNone(cfg: Config, w: World, ops: seq<Op>, v: OdooVariant)
    requires Consistent(cfg, w) && VariationRuns.Whole(w.woo) && forall k :: 0 <= k < |ops| ==> !ops[k].VariationOp?
    ensures !CataloguePass.Lost(ShelfOf(Step(cfg, Run(cfg, w, ops), CloseOp)), v)
  {
    VariationRuns.RunKeepsWhole(cfg, w, ops);
    RunConsistent(cfg, w, ops);
    VariationRuns.StepKeepsWhole(cfg, Run(cfg, w, ops), CloseOp);
    StepConsistent(cfg, Run(cfg, w, ops), CloseOp);
    VariationRuns.WholeLosesNone(ShelfOf(Step(cfg, Run(cfg, w, ops), CloseOp)), v);
  }
}
