/** VariantSyncService and ProductSyncService, step by step. */
module ProductService {
  import opened Outcomes
  import opened Tables
  import opened Sessions
  import opened WooShop
  import opened Worlds
  import opened Repositories
  import opened MappingRepositories
  import opened Paging
  import V = VariantSync
  import P = ProductSync
  import CataloguePass
  import R = RetryQueue
  import Runs
  import CatalogueRuns

  /** The part of the world that catalogue synchronisation works on. */
  ghost function ShelfView(db: Session, shop: WooStore): V.Shelf
    reads db, shop
  {
    V.Shelf(db.working.mappings, shop.View(), db.nextRow, db.nextVariantRow)
  }

  class VariantSyncService {
    const all: seq<OdooVariant>
    const db: Session
    const shop: WooStore
    const variantRepo: VariantMappingRepository

    ghost predicate Wired() {
      variantRepo.db == db
    }

    constructor (all: seq<OdooVariant>, db: Session, shop: WooStore)
      ensures Wired() && this.all == all && this.db == db && this.shop == shop
    {
      this.all, this.db, this.shop := all, db, shop;
      variantRepo := new VariantMappingRepository(db);
    }

    method Attach(row: Option<nat>, v: OdooVariant, parent: nat, z: Id)
      requires Wired()
      requires row.Some? ==> row.value in db.working.mappings.variants
      modifies db`working, db`nextVariantRow
      ensures ShelfView(db, shop) == V.AttachVariation(old(ShelfView(db, shop)), row, v, parent, z)
      ensures db.working == old(db.working).(mappings := db.working.mappings)
    {
      match row {
        case Some(i) => variantRepo.MarkSynced(i, z);
        case None => variantRepo.Create(VariantRow(parent, v.id, Some(z), v.code, SyncStatus.Synced));
      }
    }

    method SyncSingleVariant(v: OdooVariant, product: Id, parent: nat, plan: V.VariantPlan)
        returns (outcome: V.VariantOutcome)
      requires Wired()
      modifies db`working, db`nextVariantRow, shop
      ensures V.VariantReply(ShelfView(db, shop), outcome) == V.SyncVariant(old(ShelfView(db, shop)), v, product, parent, plan)
      ensures db.working == old(db.working).(mappings := db.working.mappings)
    {
      if v.code == "" {
        return V.VariantSkipped;
      }
      if plan.build.Some? {
        return V.VariantFailed(plan.build.value);
      }
      var row := variantRepo.GetByOdooId(v.id);
      if row.None? {
        row := variantRepo.GetBySku(v.code);
      }
      var reply: Result<Id>;
      if row.Some? && db.working.mappings.variants[row.value].woo.Some? {
        reply := shop.UpdateVariation(product, db.working.mappings.variants[row.value].woo.value, v.code, v.data, plan.update);
      } else {
        var found := shop.FindVariationBySku(product, v.code, plan.listingFails, plan.preferred);
        if found.Some? {
          reply := shop.UpdateVariation(product, found.value, v.code, v.data, plan.adopt);
        } else {
          reply := shop.CreateVariation(product, v.code, v.data, plan.create);
        }
      }
      if reply.Raised? {
        return V.VariantFailed(reply.fault);
      }
      Attach(row, v, parent, reply.value);
      return V.VariantSynced;
    }

    /** Counts what became of each variant; a failing variant does not stop the loop. */
    method SyncVariants(template: Id, product: Id, parent: nat, fetch: Option<Fault>, plans: seq<V.VariantPlan>)
      returns (r: Result<(nat, nat, nat)>)
      requires Wired()
      modifies db`working, db`nextVariantRow, shop
      ensures fetch.Some? ==> r == Raised(fetch.value) && ShelfView(db, shop) == old(ShelfView(db, shop))
      ensures fetch.None? ==> r.Done?
      ensures r.Done? ==> V.Tally(ShelfView(db, shop), r.value.0, r.value.1, r.value.2)
                          == V.SyncVariants(old(ShelfView(db, shop)), V.ActiveVariants(all, template), product, parent, plans)
      ensures db.working == old(db.working).(mappings := db.working.mappings)
    {
      if fetch.Some? {
        return Raised(fetch.value);
      }
      var vs := V.ActiveVariants(all, template);
      var synced, skipped, failed := 0, 0, 0;
      for k := 0 to |vs|
        invariant V.Tally(ShelfView(db, shop), synced, skipped, failed)
          == V.SyncVariants(old(ShelfView(db, shop)), vs[..k], product, parent, plans)
        invariant db.working == old(db.working).(mappings := db.working.mappings)
      {
        assert vs[..k + 1][..k] == vs[..k];
        var outcome := SyncSingleVariant(vs[k], product, parent, V.PlanOf(plans, k));
        match outcome {
          case VariantSynced => synced := synced + 1;
          case VariantSkipped => skipped := skipped + 1;
          case VariantFailed(_) => failed := failed + 1;
        }
      }
      assert vs[..|vs|] == vs;
      return Done((synced, skipped, failed));
    }
  }

  class ProductSyncService {
    const cfg: Config
    const db: Session
    const odoo: OdooApi.OdooStore
    const shop: WooStore
    const productRepo: ProductMappingRepository
    const jobRepo: FailedJobRepository
    const variantSync: VariantSyncService

    ghost predicate Wired() {
      && productRepo.db == db && jobRepo.db == db
      && variantSync.Wired() && variantSync.db == db && variantSync.shop == shop && variantSync.all == cfg.variants
    }

    constructor (cfg: Config, db: Session, odoo: OdooApi.OdooStore, shop: WooStore)
      ensures Wired() && this.cfg == cfg && this.db == db && this.odoo == odoo && this.shop == shop
    {
      this.cfg, this.db, this.odoo, this.shop := cfg, db, odoo, shop;
      productRepo := new ProductMappingRepository(db);
      jobRepo := new FailedJobRepository(db);
      variantSync := new VariantSyncService(cfg.variants, db, shop);
    }

    ghost function View(): World
      reads db, odoo, shop
    {
      WorldOf(db, odoo, shop)
    }

    method Delete(i: nat)
      requires Wired()
      modifies db`working
      ensures ShelfView(db, shop) == P.DropRow(old(ShelfView(db, shop)), i)
      ensures db.working == old(db.working).(mappings := db.working.mappings)
    {
      ghost var before := ShelfView(db, shop);
      productRepo.Delete(i);
      assert db.working.mappings.variants == P.DropRow(before, i).mappings.variants;
    }

    /** mark_synced and the product type for a row that is there, create for one that is not. */
    method Attach(row: Option<nat>, p: OdooProduct, sku: string, x: Id)
      requires Wired()
      requires row.Some? ==> row.value in db.working.mappings.products
      modifies db`working, db`nextRow
      ensures ShelfView(db, shop) == P.AttachProduct(old(ShelfView(db, shop)), row, p, sku, x)
      ensures db.working == old(db.working).(mappings := db.working.mappings)
    {
      match row {
        case Some(i) => productRepo.Update(i, Some(x), Some(SyncStatus.Synced), Some(P.Kind(p)));
        case None => productRepo.Create(ProductRow(p.id, Some(x), sku, P.Kind(p), SyncStatus.Synced));
      }
    }

    method LinkBySku(row: Option<nat>, p: OdooProduct, sku: string, plan: P.ProductPlan) returns (r: Result<P.Linked>)
      requires Wired()
      requires row.Some? ==> row.value in db.working.mappings.products
      modifies db`working, db`nextRow, shop
      ensures P.Linking(ShelfView(db, shop), r) == P.LinkBySku(old(ShelfView(db, shop)), row, p, sku, plan)
      ensures db.working == old(db.working).(mappings := db.working.mappings)
    {
      if plan.lookup.Some? {
        return Raised(plan.lookup.value);
      }
      var found := shop.FindProductBySku(sku, plan.preferred);
      if found.Some? {
        var end := shop.UpdateProduct(found.value, P.Payload(p, sku), plan.adopt);
        match end {
          case Raised(f) => return Raised(f);
          case Done(true) => Attach(row, p, sku, found.value);
          case Done(false) => return Raised(Api);
        }
        return Done(P.Linked(found.value, false));
      }
      var made := shop.CreateProduct(P.Payload(p, sku), plan.create);
      if made.Raised? {
        return Raised(made.fault);
      }
      Attach(row, p, sku, made.value);
      return Done(P.Linked(made.value, true));
    }

    method LinkProduct(p: OdooProduct, sku: string, plan: P.ProductPlan) returns (r: Result<P.Linked>)
      requires Wired()
      modifies db`working, db`nextRow, shop
      ensures P.Linking(ShelfView(db, shop), r) == P.LinkProduct(old(ShelfView(db, shop)), p, sku, plan)
      ensures db.working == old(db.working).(mappings := db.working.mappings)
    {
      var row := productRepo.GetByOdooId(p.id);
      if row.None? {
        row := productRepo.GetBySku(sku);
      }
      if row.Some? {
        var i := row.value;
        productRepo.Rekey(i, sku, p.id);
        var link := db.working.mappings.products[i].woo;
        if link.Some? {
          var end := shop.UpdateProduct(link.value, P.Payload(p, sku), plan.update);
          match end {
            case Raised(f) => return Raised(f);
            case Done(true) =>
              productRepo.Update(i, None, Some(SyncStatus.Synced), Some(P.Kind(p)));
              return Done(P.Linked(link.value, false));
            case Done(false) =>
              Delete(i);
              row := None;
          }
        }
      }
      r := LinkBySku(row, p, sku, plan);
    }

    /** The handler of API errors, and of all others, in that order. */
    method Fail(sku: string, fault: Fault, now: int)
      requires Wired()
      modifies db`working, db`nextJob
      ensures var failed := P.Failure(old(ShelfView(db, shop)), sku, fault).shelf;
        var after := R.PutShelf(old(View()), failed);
        View() == if fault.Api? then Enqueue(cfg, after, ProductWork(sku), now) else after
    {
      if fault.Api? {
        jobRepo.Create(ProductWork(sku), cfg.maxRetries, cfg.delays, now);
        var row := productRepo.GetBySku(sku);
        if row.Some? {
          productRepo.Update(row.value, None, Some(SyncStatus.Failed), None);
        }
      }
    }

    method SyncSingleProduct(p: OdooProduct, plan: P.ProductPlan, now: int) returns (action: P.Action)
      requires Wired()
      modifies db`working, db`nextRow, db`nextVariantRow, db`nextJob, shop
      ensures R.TemplateReply(View(), action) == R.SyncTemplate(cfg, old(View()), p, plan, now)
    {
      var sku := P.ResolvedSku(p, plan);
      if sku == "" {
        return P.SkippedNoSku;
      }
      if plan.build.Some? {
        Fail(sku, plan.build.value, now);
        return P.FailedWith(plan.build.value);
      }
      var link := LinkProduct(p, sku, plan);
      if link.Raised? {
        Fail(sku, link.fault, now);
        return P.FailedWith(link.fault);
      }
      if P.Kind(p).Variable? {
        var row := productRepo.GetBySku(sku);
        var parent := if row.Some? then row.value else 0;
        var variants := variantSync.SyncVariants(p.id, link.value.woo, parent, plan.fetchVariants, plan.variants);
        if variants.Raised? {
          Fail(sku, variants.fault, now);
          return P.FailedWith(variants.fault);
        }
      }
      return if link.value.created then P.Action.Created else P.Action.Updated;
    }

    /** get_product_templates with a limit and an offset. */
    method GetProductTemplates(limit: nat, offset: nat) returns (page: seq<OdooProduct>)
      ensures page == Page(cfg.templates, limit, offset)
      ensures limit > 0 && page == [] ==> |cfg.templates| <= offset
      ensures |page| < limit ==> |cfg.templates| < offset + limit
      ensures offset <= |cfg.templates| ==>
        offset + |page| <= |cfg.templates| && page == cfg.templates[offset..offset + |page|]
    {
      page := Page(cfg.templates, limit, offset);
    }

    /** One turn of the inner loop of a full pass; progress is whatever one template keeps (KeptByTemplates). */
    method SyncNext(summary: ProductSummary, p: OdooProduct, n: nat, plans: seq<P.ProductPlan>, now: int,
        ghost progress: Progress)
      returns (s: ProductSummary)
      requires Wired() && n < |cfg.templates| && p == cfg.templates[n]
      requires KeptByTemplates(cfg, plans, now, progress) && progress(View(), summary, n)
      modifies db`working, db`nextRow, db`nextVariantRow, db`nextJob, shop
      ensures progress(View(), s, n + 1)
    {
      ghost var before := View();
      var action := SyncSingleProduct(p, CataloguePass.PlanOf(plans, n), now);
      assert R.TemplateReply(View(), action) == R.SyncTemplate(cfg, before, cfg.templates[n], CataloguePass.PlanOf(plans, n), now);
      s := Counted(summary, action);
    }

    method SyncPage(summary: ProductSummary, page: seq<OdooProduct>, offset: nat, plans: seq<P.ProductPlan>,
        now: int, ghost progress: Progress)
      returns (s: ProductSummary)
      requires Wired() && offset + |page| <= |cfg.templates| && page == cfg.templates[offset..offset + |page|]
      requires KeptByTemplates(cfg, plans, now, progress) && progress(View(), summary, offset)
      modifies db`working, db`nextRow, db`nextVariantRow, db`nextJob, shop
      ensures progress(View(), s, offset + |page|)
    {
      s := summary;
      for k := 0 to |page|
        invariant progress(View(), s, offset + k)
      {
        s := SyncNext(s, page[k], offset + k, plans, now, progress);
      }
    }

    /** The batch loop.  pagesServed bounds the fetches that succeed (None: all of them). */
    method SyncPages(batchSize: nat, pagesServed: Option<nat>, plans: seq<P.ProductPlan>, now: int, ghost progress: Progress)
      returns (summary: ProductSummary)
      requires Wired() && batchSize > 0
      requires KeptByTemplates(cfg, plans, now, progress) && progress(View(), NOTHING_DONE, 0)
      modifies db`working, db`nextRow, db`nextVariantRow, db`nextJob, shop
      ensures progress(View(), summary, Visited(|cfg.templates|, batchSize, pagesServed))
    {
      summary := NOTHING_DONE;
      var offset: nat, pages: nat := 0, 0;
      while pagesServed.None? || pages < pagesServed.value
        invariant offset == pages * batchSize && offset <= |cfg.templates|
        invariant pagesServed.Some? ==> pages <= pagesServed.value
        invariant progress(View(), summary, offset)
        decreases |cfg.templates| - offset
      {
        var page := GetProductTemplates(batchSize, offset);
        if page == [] {
          VisitedAll(|cfg.templates|, batchSize, pagesServed, pages, offset);
          return;
        }
        summary := SyncPage(summary, page, offset, plans, now, progress);
        if |page| < batchSize {
          VisitedAll(|cfg.templates|, batchSize, pagesServed, pages + 1, offset + batchSize);
          return;
        }
        offset := offset + batchSize;
        pages := pages + 1;
      }
    }

    /** A full pass in batches.  The exception of a failing fetch is swallowed, and what was done until then is
        committed.  Every template of the pages served is visited exactly once, in order, and counted once. */
    method SyncAllProducts(batchSize: nat, pagesServed: Option<nat>, plans: seq<P.ProductPlan>, now: int)
        returns (summary: ProductSummary)
      requires Wired() && batchSize > 0
      modifies db, shop
      ensures var visited := Visited(|cfg.templates|, batchSize, pagesServed);
        && View() == Runs.FullPass(cfg, old(View()), visited, plans, now, true)
        && Matches(summary, cfg, old(View()), visited, plans, now)
    {
      ghost var progress := ProgressFrom(cfg, View(), plans, now);
      ProgressIsKept(cfg, View(), plans, now);
      summary := SyncPages(batchSize, pagesServed, plans, now, progress);
      db.Commit();
    }

    /** An exception of the search, or no such template, counts as a failure of the call. */
    method SyncProductBySku(sku: string, search: Option<Fault>, plan: P.ProductPlan, now: int) returns (failed: bool)
      requires Wired()
      modifies db, shop
      ensures var x := R.SyncBySku(cfg, old(View()), sku, search, plan, now);
        View() == x.world && failed == x.raised
    {
      if search.Some? {
        return true;
      }
      var found := R.TemplateWithCode(cfg.templates, sku);
      if found.None? {
        return true;
      }
      var action := SyncSingleProduct(found.value, plan, now);
      db.Commit();
      return action.FailedWith?;
    }
  }

  // ---------- the summary of a full pass ----------

  datatype ProductSummary = ProductSummary(total: nat, created: nat, updated: nat, skipped: nat, failed: nat, results: seq<P.Action>)

  const NOTHING_DONE := ProductSummary(0, 0, 0, 0, 0, [])

  /** How many of n templates the pages served hold. */
  function Visited(n: nat, batchSize: nat, pagesServed: Option<nat>): (v: nat)
    ensures v <= n
  {
    if pagesServed.None? || n <= pagesServed.value * batchSize then n else pagesServed.value * batchSize
  }

  function Counted(s: ProductSummary, action: P.Action): ProductSummary {
    var t := s.(total := s.total + 1, results := s.results + [action]);
    match action
    case Created => t.(created := s.created + 1)
    case Updated => t.(updated := s.updated + 1)
    case SkippedNoSku => t.(skipped := s.skipped + 1)
    case FailedWith(_) => t.(failed := s.failed + 1)
  }

  function Actions(cfg: Config, w: World, qs: seq<OdooProduct>, plans: seq<P.ProductPlan>, now: int): seq<P.Action> {
    if qs == [] then []
    else
      var n := |qs| - 1;
      Actions(cfg, w, qs[..n], plans, now)
      + [R.SyncTemplate(cfg, R.SyncTemplates(cfg, w, qs[..n], plans, now), qs[n], CataloguePass.PlanOf(plans, n), now).action]
  }

  /** The counters of a pass over the first n templates. */
  ghost predicate Tallied(s: ProductSummary, cfg: Config, start: World, n: nat, plans: seq<P.ProductPlan>)
    requires n <= |cfg.templates|
  {
    var pass := CataloguePass.Pass(R.ShelfOf(start), cfg.variants, cfg.templates[..n], plans);
    && s.created == pass.created && s.updated == pass.updated && s.skipped == pass.skipped && s.failed == pass.failed
    && s.created + s.updated + s.skipped + s.failed == n
  }

  /** Each counter says how often its outcome is among the results. */
  ghost predicate CountsResults(s: ProductSummary) {
    var ends := multiset(s.results);
    && s.created == ends[P.Action.Created] && s.updated == ends[P.Action.Updated] && s.skipped == ends[P.SkippedNoSku]
    && s.failed == ends[P.FailedWith(Api)] + ends[P.FailedWith(Other)]
  }

  lemma CountedCounts(s: ProductSummary, action: P.Action)
    requires CountsResults(s)
    ensures CountsResults(Counted(s, action))
  {
    match action {
      case FailedWith(fault) =>
        match fault {
          case Api =>
          case Other =>
        }
      case _ =>
    }
  }

  /** The summary of a pass over the first n templates: one entry and one count for each, in order. */
  ghost predicate Matches(s: ProductSummary, cfg: Config, start: World, n: nat, plans: seq<P.ProductPlan>, now: int)
    requires n <= |cfg.templates|
  {
    && s.total == n == |s.results| && CountsResults(s)
    && s.results == Actions(cfg, start, cfg.templates[..n], plans, now)
    && Tallied(s, cfg, start, n, plans)
  }

  /** What holds of the world and the summary once n templates are done. */
  type Progress = (World, ProductSummary, nat) -> bool

  ghost predicate KeptByTemplates(cfg: Config, plans: seq<P.ProductPlan>, now: int, progress: Progress) {
    forall w, s, n: nat {:trigger progress(w, s, n), R.SyncTemplate(cfg, w, cfg.templates[n], CataloguePass.PlanOf(plans, n), now)} ::
      n < |cfg.templates| && progress(w, s, n) ==>
        var reply := R.SyncTemplate(cfg, w, cfg.templates[n], CataloguePass.PlanOf(plans, n), now);
        progress(reply.world, Counted(s, reply.action), n + 1)
  }

  ghost predicate DoneSoFar(w: World, s: ProductSummary, cfg: Config, start: World, n: nat,
      plans: seq<P.ProductPlan>, now: int) {
    && n <= |cfg.templates|
    && w == R.SyncTemplates(cfg, start, cfg.templates[..n], plans, now)
    && Matches(s, cfg, start, n, plans, now)
  }

  ghost function ProgressFrom(cfg: Config, start: World, plans: seq<P.ProductPlan>, now: int): Progress {
    (w: World, s: ProductSummary, n: nat) => DoneSoFar(w, s, cfg, start, n, plans, now)
  }

  lemma WorldStep(cfg: Config, start: World, n: nat, plans: seq<P.ProductPlan>, now: int)
    requires n < |cfg.templates|
    ensures var w := R.SyncTemplates(cfg, start, cfg.templates[..n], plans, now);
      R.SyncTemplates(cfg, start, cfg.templates[..n + 1], plans, now)
      == R.SyncTemplate(cfg, w, cfg.templates[n], CataloguePass.PlanOf(plans, n), now).world
  {
    var qs := cfg.templates[..n + 1];
    assert qs != [] && |qs| - 1 == n && qs[..n] == cfg.templates[..n] && qs[n] == cfg.templates[n];
    assert R.SyncTemplates(cfg, start, qs, plans, now)
      == R.SyncTemplate(cfg, R.SyncTemplates(cfg, start, qs[..n], plans, now), qs[n], CataloguePass.PlanOf(plans, n), now).world;
  }

  lemma ResultStep(cfg: Config, start: World, n: nat, plans: seq<P.ProductPlan>, now: int)
    requires n < |cfg.templates|
    ensures var w := R.SyncTemplates(cfg, start, cfg.templates[..n], plans, now);
      Actions(cfg, start, cfg.templates[..n + 1], plans, now)
      == Actions(cfg, start, cfg.templates[..n], plans, now)
         + [R.SyncTemplate(cfg, w, cfg.templates[n], CataloguePass.PlanOf(plans, n), now).action]
  {
    var qs := cfg.templates[..n + 1];
    assert qs != [] && |qs| - 1 == n && qs[..n] == cfg.templates[..n] && qs[n] == cfg.templates[n];
    assert Actions(cfg, start, qs, plans, now) == Actions(cfg, start, qs[..n], plans, now)
      + [R.SyncTemplate(cfg, R.SyncTemplates(cfg, start, qs[..n], plans, now), qs[n], CataloguePass.PlanOf(plans, n), now).action];
  }

  lemma CounterStep(cfg: Config, start: World, s: ProductSummary, n: nat, plans: seq<P.ProductPlan>, now: int)
    requires n < |cfg.templates| && Tallied(s, cfg, start, n, plans)
    ensures var w := R.SyncTemplates(cfg, start, cfg.templates[..n], plans, now);
      Tallied(Counted(s, R.SyncTemplate(cfg, w, cfg.templates[n], CataloguePass.PlanOf(plans, n), now).action), cfg, start, n + 1, plans)
  {
    CatalogueRuns.SyncTemplatesIsPass(cfg, start, cfg.templates[..n], plans, now);
    CataloguePass.PassUnfold(R.ShelfOf(start), cfg.variants, cfg.templates, n + 1, plans);
  }

  lemma DoneSoFarStep(w: World, s: ProductSummary, cfg: Config, start: World, n: nat, plans: seq<P.ProductPlan>, now: int)
    requires DoneSoFar(w, s, cfg, start, n, plans, now) && n < |cfg.templates|
    ensures var reply := R.SyncTemplate(cfg, w, cfg.templates[n], CataloguePass.PlanOf(plans, n), now);
      DoneSoFar(reply.world, Counted(s, reply.action), cfg, start, n + 1, plans, now)
  {
    WorldStep(cfg, start, n, plans, now);
    ResultStep(cfg, start, n, plans, now);
    CounterStep(cfg, start, s, n, plans, now);
    CountedCounts(s, R.SyncTemplate(cfg, w, cfg.templates[n], CataloguePass.PlanOf(plans, n), now).action);
  }

  lemma ProgressIsKept(cfg: Config, start: World, plans: seq<P.ProductPlan>, now: int)
    ensures KeptByTemplates(cfg, plans, now, ProgressFrom(cfg, start, plans, now))
    ensures ProgressFrom(cfg, start, plans, now)(start, NOTHING_DONE, 0)
  {
    var progress := ProgressFrom(cfg, start, plans, now);
    assert cfg.templates[..0] == [];
    forall w, s, n: nat | n < |cfg.templates| && progress(w, s, n)
      ensures var reply := R.SyncTemplate(cfg, w, cfg.templates[n], CataloguePass.PlanOf(plans, n), now);
        progress(reply.world, Counted(s, reply.action), n + 1) {
      DoneSoFarStep(w, s, cfg, start, n, plans, now);
    }
  }

  lemma VisitedAll(all: nat, batchSize: nat, pagesServed: Option<nat>, pages: nat, offset: nat)
    requires pagesServed.Some? ==> pages <= pagesServed.value
    requires all <= offset == pages * batchSize
    ensures Visited(all, batchSize, pagesServed) == all
  {
  }
}
