/** The catalogue invariant over every run, and recovery from any of them. */
module CatalogueRuns {
  import opened Outcomes
  import opened Tables
  import opened WooApi
  import opened Worlds
  import opened OrderSync
  import opened RetryQueue
  import opened Runs
  import CatalogueFrames
  import Heritage

  type Shelf = VariantSync.Shelf

  /** Odoo's catalogue, the mapping tables in the session and in the database, and the shop are free of conflicts. */
  ghost predicate Consistent(cfg: Config, w: World) {
    CatalogueFrames.CatalogueSound(cfg.templates, cfg.variants, w.committed.mappings, ShelfOf(w))
  }

  // ---------- transactions ----------

  lemma CommitSound(ps: seq<OdooProduct>, all: seq<OdooVariant>, durable: Mappings, s: Shelf)
    requires CatalogueFrames.CatalogueSound(ps, all, durable, s)
    ensures CatalogueFrames.CatalogueSound(ps, all, s.mappings, s)
  {
  }

  lemma RollbackSound(ps: seq<OdooProduct>, all: seq<OdooVariant>, durable: Mappings, s: Shelf)
    requires CatalogueFrames.CatalogueSound(ps, all, durable, s)
    ensures CatalogueFrames.CatalogueSound(ps, all, durable, s.(mappings := durable))
  {
  }

  /** Operations on orders and jobs only commit, roll back, or leave the mapping tables. */
  ghost predicate MappingsMove(w: World, after: World) {
    && after.woo == w.woo && after.nextRow == w.nextRow && after.nextVariantRow == w.nextVariantRow
    && (|| (after.working.mappings == w.working.mappings && after.committed.mappings == w.committed.mappings)
        || (after.working.mappings == after.committed.mappings == w.working.mappings)
        || (after.working.mappings == after.committed.mappings == w.committed.mappings))
  }

  lemma MappingsMoveKeeps(cfg: Config, w: World, after: World)
    requires Consistent(cfg, w) && MappingsMove(w, after)
    ensures Consistent(cfg, after)
  {
    CommitSound(cfg.templates, cfg.variants, w.committed.mappings, ShelfOf(w));
    RollbackSound(cfg.templates, cfg.variants, w.committed.mappings, ShelfOf(w));
    CommitSound(cfg.templates, cfg.variants, w.committed.mappings, ShelfOf(w).(mappings := w.committed.mappings));
  }

  lemma SyncOrderMoves(cfg: Config, w: World, id: int, visit: Visit)
    ensures MappingsMove(w, SyncOrder(cfg, w, id, visit).world)
  {
  }

  // ---------- the shop ----------

  lemma FewerCarriers(woo: Woo, gone: Id)
    ensures forall x, p :: ProductSync.Carries(DeleteProduct(woo, gone), x, p) ==> ProductSync.Carries(woo, x, p)
  {
  }

  lemma DeletionKeepsProducts(ps: seq<OdooProduct>, rows: map<nat, ProductRow>, woo: Woo, nextRow: nat, gone: Id)
    requires ProductSync.ProductsTidy(ps, rows, woo, nextRow)
    ensures ProductSync.ProductsTidy(ps, rows, DeleteProduct(woo, gone), nextRow)
  {
    FewerCarriers(woo, gone);
  }

  lemma DeletionKeepsVariants(all: seq<OdooVariant>, durable: Mappings, s: Shelf, gone: Id)
    requires VariantSync.VariantShelf(all, durable, s)
    ensures VariantSync.VariantShelf(all, durable, s.(woo := DeleteProduct(s.woo, gone)))
  {
  }

  lemma DeletionSound(ps: seq<OdooProduct>, all: seq<OdooVariant>, durable: Mappings, s: Shelf, gone: Id)
    requires CatalogueFrames.CatalogueSound(ps, all, durable, s)
    ensures CatalogueFrames.CatalogueSound(ps, all, durable, s.(woo := DeleteProduct(s.woo, gone)))
  {
    FewerCarriers(s.woo, gone);
    DeletionKeepsProducts(ps, s.mappings.products, s.woo, s.nextRow, gone);
    DeletionKeepsProducts(ps, durable.products, s.woo, s.nextRow, gone);
    DeletionKeepsVariants(all, durable, s, gone);
  }

  lemma VariationDeletionSound(ps: seq<OdooProduct>, all: seq<OdooVariant>, durable: Mappings, s: Shelf, gone: Id)
    requires CatalogueFrames.CatalogueSound(ps, all, durable, s)
    ensures CatalogueFrames.CatalogueSound(ps, all, durable, s.(woo := DeleteVariation(s.woo, gone)))
  {
    var after := s.(woo := DeleteVariation(s.woo, gone));
    assert forall x, p :: ProductSync.Carries(after.woo, x, p) <==> ProductSync.Carries(s.woo, x, p);
    assert ProductSync.ProductShelf(ps, durable.products, after);
    assert VariantSync.VariantShelf(all, durable, after);
  }

  // ---------- product synchronisation ----------

  /** The shelf after a pass through the templates is the one the catalogue pass computes. */
  lemma {:induction false} SyncTemplatesIsPass(cfg: Config, w: World, qs: seq<OdooProduct>,
      plans: seq<ProductSync.ProductPlan>, now: int)
    ensures var after := SyncTemplates(cfg, w, qs, plans, now);
      && ShelfOf(after) == CataloguePass.Pass(ShelfOf(w), cfg.variants, qs, plans).shelf
      && after.committed == w.committed
  {
    if qs != [] {
      var n := |qs| - 1;
      SyncTemplatesIsPass(cfg, w, qs[..n], plans, now);
      var before := SyncTemplates(cfg, w, qs[..n], plans, now);
      var plan := CataloguePass.PlanOf(plans, n);
      var reply := ProductSync.SyncSingleProduct(ShelfOf(before), cfg.variants, qs[n], plan);
      assert ShelfOf(SyncTemplate(cfg, before, qs[n], plan, now).world) == reply.shelf;
    }
  }

  lemma {:induction false} FoundTemplate(ps: seq<OdooProduct>, sku: string)
    ensures TemplateWithCode(ps, sku).Some? ==>
      TemplateWithCode(ps, sku).value in ps && TemplateWithCode(ps, sku).value.code == sku
    ensures TemplateWithCode(ps, sku).None? ==> forall p :: p in ps ==> p.code != sku
  {
    if ps != [] && ps[0].code != sku {
      FoundTemplate(ps[1..], sku);
      assert ps == [ps[0]] + ps[1..];
    }
  }

  /** The templates that an operation syncs, and the outcomes of the calls it makes for them. */
  datatype Batch = Batch(products: seq<OdooProduct>, plans: seq<ProductSync.ProductPlan>)

  function SkuBatch(cfg: Config, sku: string, search: Option<Fault>, plan: ProductSync.ProductPlan): Batch {
    var found := TemplateWithCode(cfg.templates, sku);
    if search.None? && found.Some? then Batch([found.value], [plan]) else Batch([], [])
  }

  function BatchOf(cfg: Config, w: World, op: Op): Batch {
    match op
    case AttemptOp(id, plan) =>
      if id in w.working.jobs && plan.authenticated && w.working.jobs[id].work.ProductWork? && w.working.jobs[id].work.sku != ""
      then SkuBatch(cfg, w.working.jobs[id].work.sku, plan.search, plan.product)
      else Batch([], [])
    case SkuOp(sku, search, plan, _) => SkuBatch(cfg, sku, search, plan)
    case PassOp(count, plans, _, _) => Batch(cfg.templates[..Fetched(cfg, count)], plans)
    case _ => Batch([], [])
  }

  lemma BatchIsOfTemplates(cfg: Config, w: World, op: Op)
    ensures forall q :: q in BatchOf(cfg, w, op).products ==> q in cfg.templates
  {
    if op.SkuOp? {
      FoundTemplate(cfg.templates, op.sku);
    }
    if op.AttemptOp? && op.job in w.working.jobs && w.working.jobs[op.job].work.ProductWork? {
      FoundTemplate(cfg.templates, w.working.jobs[op.job].work.sku);
    }
  }

  function ShelfAfter(cfg: Config, w: World, b: Batch): Shelf {
    CataloguePass.Pass(ShelfOf(w), cfg.variants, b.products, b.plans).shelf
  }

  lemma SkuIsBatch(cfg: Config, w: World, sku: string, search: Option<Fault>, plan: ProductSync.ProductPlan, now: int)
    ensures MappingsMove(PutShelf(w, ShelfAfter(cfg, w, SkuBatch(cfg, sku, search, plan))), SyncBySku(cfg, w, sku, search, plan, now).world)
  {
    var found := TemplateWithCode(cfg.templates, sku);
    if search.None? && found.Some? {
      var p := found.value;
      assert [p][..0] == [] && [p][0] == p && CataloguePass.PlanOf([plan], 0) == plan;
      assert CataloguePass.Pass(ShelfOf(w), cfg.variants, [], [plan]).shelf == ShelfOf(w);
      CataloguePass.PassLast(ShelfOf(w), cfg.variants, [p], [plan]);
      assert ShelfAfter(cfg, w, Batch([p], [plan])) == ProductSync.SyncSingleProduct(ShelfOf(w), cfg.variants, p, plan).shelf;
      assert ShelfOf(SyncTemplate(cfg, w, p, plan, now).world) == ShelfAfter(cfg, w, Batch([p], [plan]));
    } else {
      assert ShelfAfter(cfg, w, Batch([], [])) == ShelfOf(w);
    }
  }

  lemma AttemptMoves(cfg: Config, w: World, id: nat, plan: JobPlan)
    ensures ShelfOf(AttemptJob(cfg, w, id, plan))
      == if id in w.working.jobs then ShelfOf(Execute(cfg, w, w.working.jobs[id].work, plan).world) else ShelfOf(w)
    ensures AttemptJob(cfg, w, id, plan).committed
      == if id in w.working.jobs then Execute(cfg, w, w.working.jobs[id].work, plan).world.committed else w.committed
  {
  }

  lemma AttemptIsBatch(cfg: Config, w: World, id: nat, plan: JobPlan)
    ensures MappingsMove(PutShelf(w, ShelfAfter(cfg, w, BatchOf(cfg, w, AttemptOp(id, plan)))), AttemptJob(cfg, w, id, plan))
  {
    AttemptMoves(cfg, w, id, plan);
    assert ShelfAfter(cfg, w, Batch([], [])) == ShelfOf(w);
    if id in w.working.jobs {
      match w.working.jobs[id].work {
        case OrderWork(o) => SyncOrderMoves(cfg, w, o, plan.visit);
        case ProductWork(sku) => SkuIsBatch(cfg, w, sku, plan.search, plan.product, plan.at);
        case InventoryWork(_) =>
        case UnknownWork =>
      }
    }
  }

  /** Every operation of the platform syncs its batch, and may then end the transaction. */
  lemma StepIsBatch(cfg: Config, w: World, op: Op)
    requires !op.ShopOp? && !op.VariationOp?
    ensures MappingsMove(PutShelf(w, ShelfAfter(cfg, w, BatchOf(cfg, w, op))), Step(cfg, w, op))
  {
    match op {
      case OrderOp(id, visit) => SyncOrderMoves(cfg, w, id, visit);
      case PayloadOp(id, visit) => SyncOrderMoves(cfg, w, id, visit);
      case AttemptOp(id, plan) => AttemptIsBatch(cfg, w, id, plan);
      case SkuOp(sku, search, plan, now) => SkuIsBatch(cfg, w, sku, search, plan, now);
      case PassOp(count, plans, now, _) => SyncTemplatesIsPass(cfg, w, cfg.templates[..Fetched(cfg, count)], plans, now);
      case _ =>
    }
  }

  lemma StepConsistent(cfg: Config, w: World, op: Op)
    requires Consistent(cfg, w)
    ensures Consistent(cfg, Step(cfg, w, op))
  {
    match op {
      case ShopOp(gone) =>
        DeletionSound(cfg.templates, cfg.variants, w.committed.mappings, ShelfOf(w), gone);
        assert ShelfOf(Step(cfg, w, op)) == ShelfOf(w).(woo := DeleteProduct(w.woo, gone));
      case VariationOp(gone) =>
        VariationDeletionSound(cfg.templates, cfg.variants, w.committed.mappings, ShelfOf(w), gone);
        assert ShelfOf(Step(cfg, w, op)) == ShelfOf(w).(woo := DeleteVariation(w.woo, gone));
      case _ =>
        var b := BatchOf(cfg, w, op);
        BatchIsOfTemplates(cfg, w, op);
        CataloguePass.PassKeepsSound(cfg.templates, cfg.variants, w.committed.mappings, ShelfOf(w), b.products, b.plans);
        StepIsBatch(cfg, w, op);
        MappingsMoveKeeps(cfg, PutShelf(w, ShelfAfter(cfg, w, b)), Step(cfg, w, op));
    }
  }

  /** Over every run, with failures, crashes, repeated sends and deletions anywhere: every row is claimed by one
      template at most, is the row of the template whose SKU the product it is linked to carries, every variant row
      lies under a living row and names a variation made under that row's product, and every SYNCED row has a
      WooCommerce id. */
  lemma {:induction false} RunConsistent(cfg: Config, w: World, ops: seq<Op>)
    requires Consistent(cfg, w)
    ensures Consistent(cfg, Run(cfg, w, ops))
  {
    if ops != [] {
      var n := |ops| - 1;
      RunConsistent(cfg, w, ops[..n]);
      StepConsistent(cfg, Run(cfg, w, ops[..n]), ops[n]);
    }
  }

  // ---------- recovery ----------

  /** What a full pass without failures makes of the shelf it starts from. */
  ghost predicate ConvergedFrom(cfg: Config, start: Shelf, end: Shelf) {
    && (forall p :: ProductSync.IsSold(cfg.templates, p) ==>
          exists i, x :: CataloguePass.DoneFor(start, end, cfg.variants, p, i, x))
    && Heritage.Adopts(cfg.templates, start, end)
    && |end.woo.products.Keys| == |start.woo.products.Keys| + Heritage.Needed(start, cfg.templates)
  }

  lemma PassIsConvergence(cfg: Config, durable: Mappings, start: Shelf, plans: seq<ProductSync.ProductPlan>)
    requires CatalogueFrames.CatalogueSound(cfg.templates, cfg.variants, durable, start) && CataloguePass.AllSmooth(plans)
    ensures ConvergedFrom(cfg, start, CataloguePass.Pass(start, cfg.variants, cfg.templates, plans).shelf)
  {
    CataloguePass.Converges(cfg.templates, cfg.variants, durable, start, plans);
  }

  lemma FullPassIsPass(cfg: Config, start: World, plans: seq<ProductSync.ProductPlan>, now: int)
    ensures var end := Step(cfg, start, PassOp(|cfg.templates|, plans, now, true));
      && end.committed == end.working
      && ShelfOf(end) == CataloguePass.Pass(ShelfOf(start), cfg.variants, cfg.templates, plans).shelf
  {
    assert cfg.templates[..|cfg.templates|] == cfg.templates;
    SyncTemplatesIsPass(cfg, start, cfg.templates, plans, now);
  }

  /** Recovery: after any run, which may have lost rows in a crash, missed the answer of a create call, or
      had products deleted, one full pass without failures settles every template for good, adopting what
      the shop already holds and creating exactly the products it lacks. */
  lemma RecoveryConverges(cfg: Config, w: World, ops: seq<Op>, plans: seq<ProductSync.ProductPlan>, now: int)
    requires Consistent(cfg, w) && CataloguePass.AllSmooth(plans)
    ensures var start := Step(cfg, Run(cfg, w, ops), CloseOp);
      var end := Step(cfg, start, PassOp(|cfg.templates|, plans, now, true));
      && Consistent(cfg, end)
      && end.committed == end.working
      && ConvergedFrom(cfg, ShelfOf(start), ShelfOf(end))
  {
    var start := Step(cfg, Run(cfg, w, ops), CloseOp);
    assert Consistent(cfg, start) by {
      RunConsistent(cfg, w, ops);
      StepConsistent(cfg, Run(cfg, w, ops), CloseOp);
    }
    StepConsistent(cfg, start, PassOp(|cfg.templates|, plans, now, true));
    FullPassIsPass(cfg, start, plans, now);
    PassIsConvergence(cfg, start.committed.mappings, ShelfOf(start), plans);
  }

  // ---------- links are never replaced in place ----------

  /** Rows that were linked at the start keep that link for as long as they exist. */
  ghost predicate KeepsLinks(origin: map<nat, ProductRow>, rows: map<nat, ProductRow>) {
    forall i :: i in origin && origin[i].woo.Some? && i in rows ==> rows[i].woo == origin[i].woo
  }

  ghost predicate LinksKept(origin: map<nat, ProductRow>, w: World) {
    && KeepsLinks(origin, w.working.mappings.products)
    && KeepsLinks(origin, w.committed.mappings.products)
    && CatalogueFrames.RowsBelow(origin, w.nextRow)
    && CatalogueFrames.RowsBelow(w.working.mappings.products, w.nextRow)
    && CatalogueFrames.RowsBelow(w.committed.mappings.products, w.nextRow)
  }

  lemma {:induction false} PassKeepsLinks(origin: map<nat, ProductRow>, s: Shelf, all: seq<OdooVariant>,
      qs: seq<OdooProduct>,
      plans: seq<ProductSync.ProductPlan>)
    requires KeepsLinks(origin, s.mappings.products)
    requires CatalogueFrames.RowsBelow(origin, s.nextRow) && CatalogueFrames.RowsBelow(s.mappings.products, s.nextRow)
    ensures var after := CataloguePass.Pass(s, all, qs, plans).shelf;
      && KeepsLinks(origin, after.mappings.products)
      && s.nextRow <= after.nextRow && CatalogueFrames.RowsBelow(after.mappings.products, after.nextRow)
  {
    if qs != [] {
      var n := |qs| - 1;
      PassKeepsLinks(origin, s, all, qs[..n], plans);
      CatalogueFrames.SyncNeverRelinks(CataloguePass.Pass(s, all, qs[..n], plans).shelf, all, qs[n], CataloguePass.PlanOf(plans, n));
      CataloguePass.PassLast(s, all, qs, plans);
    }
  }

  lemma MappingsMoveLinks(origin: map<nat, ProductRow>, w: World, after: World)
    requires LinksKept(origin, w) && MappingsMove(w, after)
    ensures LinksKept(origin, after)
  {
  }

  lemma StepKeepsLinks(origin: map<nat, ProductRow>, cfg: Config, w: World, op: Op)
    requires LinksKept(origin, w)
    ensures LinksKept(origin, Step(cfg, w, op))
  {
    if !op.ShopOp? && !op.VariationOp? {
      var b := BatchOf(cfg, w, op);
      PassKeepsLinks(origin, ShelfOf(w), cfg.variants, b.products, b.plans);
      StepIsBatch(cfg, w, op);
      MappingsMoveLinks(origin, PutShelf(w, ShelfAfter(cfg, w, b)), Step(cfg, w, op));
    }
  }

  /** Over every run a product row's WooCommerce id is never replaced in place: the row keeps it or is deleted. */
  lemma {:induction false} LinksNeverReplaced(origin: map<nat, ProductRow>, cfg: Config, w: World, ops: seq<Op>)
    requires LinksKept(origin, w)
    ensures LinksKept(origin, Run(cfg, w, ops))
  {
    if ops != [] {
      var n := |ops| - 1;
      LinksNeverReplaced(origin, cfg, w, ops[..n]);
      StepKeepsLinks(origin, cfg, Run(cfg, w, ops[..n]), ops[n]);
    }
  }
}
