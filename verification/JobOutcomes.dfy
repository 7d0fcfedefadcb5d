/** What it means that a retry succeeded: what the job is about has really been done. */
module JobOutcomes {
  import opened Outcomes
  import opened Tables
  import opened FailedJobs
  import opened Worlds
  import opened OrderSync
  import opened RetryQueue
  import CataloguePass
  import CatalogueRuns
  import OrderOutcomes
  import ProductSync
  import Runs
  import TemplateOutcomes

  /** The template with this code is settled: one synced row, linked to the living product that carries its data. */
  ghost predicate IsDoneForSku(cfg: Config, w: World, sku: string) {
    exists p, i, x :: p in cfg.templates && p.code == sku && ProductSync.SettledBy(ShelfOf(w), p, i, x)
  }

  /** An order job fails exactly if the order is not SYNCED in the database afterwards; id 0 never fails. */
  lemma OrderJobFailsIff(cfg: Config, w: World, id: int, plan: JobPlan)
    requires OrdersSound(w) && plan.authenticated
    ensures var x := Execute(cfg, w, OrderWork(id), plan);
      x.raised <==> id != 0 && !IsSynced(x.world.committed, id)
  {
  }

  /** A product job that succeeds has settled the template with its SKU as code, durably. */
  lemma ProductJobSucceeds(cfg: Config, w: World, sku: string, plan: JobPlan)
    requires CatalogueRuns.Consistent(cfg, w) && sku != "" && plan.authenticated
    requires !Execute(cfg, w, ProductWork(sku), plan).raised
    ensures var after := Execute(cfg, w, ProductWork(sku), plan).world;
      IsDoneForSku(cfg, after, sku) && after.committed == after.working
  {
    CatalogueRuns.FoundTemplate(cfg.templates, sku);
    var p := TemplateWithCode(cfg.templates, sku).value;
    TemplateOutcomes.SuccessSettles(cfg.templates, cfg.variants, w.committed.mappings, ShelfOf(w), p, plan.product);
    var r := ProductSync.SyncSingleProduct(ShelfOf(w), cfg.variants, p, plan.product);
    var i, x :| ProductSync.SettledBy(r.shelf, p, i, x);
    var after := Execute(cfg, w, ProductWork(sku), plan).world;
    assert ShelfOf(after) == r.shelf;
    assert ProductSync.SettledBy(ShelfOf(after), p, i, x);
  }

  /** It fails exactly if the search fails, no template has the code, or the sync of that template fails. */
  lemma ProductJobFailsIff(cfg: Config, w: World, sku: string, plan: JobPlan)
    requires sku != "" && plan.authenticated
    ensures Execute(cfg, w, ProductWork(sku), plan).raised <==>
      || plan.search.Some?
      || (forall p :: p in cfg.templates ==> p.code != sku)
      || (var found := TemplateWithCode(cfg.templates, sku);
          found.Some? && ProductSync.SyncSingleProduct(ShelfOf(w), cfg.variants, found.value, plan.product).action.FailedWith?)
  {
    CatalogueRuns.FoundTemplate(cfg.templates, sku);
  }

  /** Without a login every job fails and does nothing; a job of an unknown type always does; one about nothing never does. */
  lemma OtherJobs(cfg: Config, w: World, work: Work, plan: JobPlan)
    ensures !plan.authenticated || work.UnknownWork? ==> Execute(cfg, w, work, plan) == Executed(w, true, Leaves)
    ensures plan.authenticated && (work == OrderWork(0) || work == ProductWork("") || work == InventoryWork("")) ==>
      Execute(cfg, w, work, plan) == Executed(w, false, Leaves)
    ensures plan.authenticated && work.InventoryWork? && work.sku != "" ==>
      var x := Execute(cfg, w, work, plan);
      && (x.raised <==> plan.inventory.InventoryFailed?)
      && x.world == if plan.inventory.InventoryUpdated? then Commit(w) else w
  {
  }

  // ---------- what a failure of a template puts on the queue ----------

  /** The sync of a template puts one job for its SKU on the queue if it fails with an API error, and none otherwise; it
      commits nothing. */
  lemma TemplateQueues(cfg: Config, w: World, p: OdooProduct, plan: ProductSync.ProductPlan, now: int)
    ensures var r := SyncTemplate(cfg, w, p, plan, now);
      && r.action == ProductSync.SyncSingleProduct(ShelfOf(w), cfg.variants, p, plan).action
      && r.world.working.jobs
         == (if r.action == ProductSync.FailedWith(Api)
             then w.working.jobs[w.nextJob := OrderOutcomes.FreshJob(cfg, ProductWork(ProductSync.Sku(p)), now)]
             else w.working.jobs)
      && r.world.committed == w.committed && r.world.odoo == w.odoo
      && r.world.working.orders == w.working.orders && r.world.working.customers == w.working.customers
  {
  }

  /** The sync of one product by SKU that comes to a template commits, failed or not, with the job that a failure queues. */
  lemma FailedProductIsQueued(cfg: Config, w: World, sku: string, search: Option<Fault>, plan: ProductSync.ProductPlan,
      now: int)
    ensures var x := SyncBySku(cfg, w, sku, search, plan, now);
      var found := TemplateWithCode(cfg.templates, sku);
      if search.Some? || found.None? then x == Executed(w, true, Leaves)
      else
        var action := ProductSync.SyncSingleProduct(ShelfOf(w), cfg.variants, found.value, plan).action;
        && x.world.committed == x.world.working
        && x.world.committed.jobs
           == if action == ProductSync.FailedWith(Api)
              then w.working.jobs[w.nextJob := OrderOutcomes.FreshJob(cfg, ProductWork(ProductSync.Sku(found.value)), now)]
              else w.working.jobs
  {
  }

  // ---------- attempts that stand alone ----------

  /** A single retry of an existing job commits, with the job resolved if its execution succeeded and advanced if not; a job
      that does not exist is not retried. */
  lemma SingleRetryMeans(cfg: Config, w: World, id: nat, plan: JobPlan)
    requires JobsBounded(w) && w.working.jobs == w.committed.jobs
    ensures var after := RetrySingle(cfg, w, id, plan);
      if id !in w.working.jobs then after == w
      else
        var job, x := w.working.jobs[id], Execute(cfg, w, w.working.jobs[id].work, plan);
        && after.committed == after.working && id in after.committed.jobs
        && (!x.raised ==> after.committed.jobs[id] == job.(status := Resolved, resolvedAt := Some(plan.at), nextRetryAt := None))
        && (x.raised ==> after.committed.jobs[id].retryCount == job.retryCount + 1)
        && (x.raised && job.retryCount + 1 < job.maxRetries ==>
              after.committed.jobs[id].status.Pending? && after.committed.jobs[id].resolvedAt == job.resolvedAt)
        && (x.raised && job.maxRetries <= job.retryCount + 1 ==>
              && after.committed.jobs[id].status.DeadLetter? && after.committed.jobs[id].nextRetryAt.None?
              && after.committed.jobs[id].resolvedAt == Some(plan.at))
        && after.odoo == x.world.odoo && after.woo == x.world.woo
        && after.committed.orders == x.world.working.orders && after.committed.customers == x.world.working.customers
        && after.committed.mappings == x.world.working.mappings
  {
    if id in w.working.jobs {
      ExecuteTransaction(cfg, w, w.working.jobs[id].work, plan);
    }
  }

  /** The manual retry takes exactly the jobs that are pending or dead: each is ready from now on with all its retries left,
      in the database too, and no other job changes. */
  lemma RequeueMeans(w: World, id: nat, now: int)
    ensures var after := Runs.Requeue(w, id, now);
      if id in w.working.jobs && (w.working.jobs[id].status.Pending? || w.working.jobs[id].status.DeadLetter?) then
        && after == w.(working := after.working, committed := after.working)
        && after.working == w.working.(jobs := after.working.jobs)
        && after.working.jobs.Keys == w.working.jobs.Keys
        && (forall other :: other in w.working.jobs && other != id ==> after.working.jobs[other] == w.working.jobs[other])
        && after.working.jobs[id].work == w.working.jobs[id].work && after.working.jobs[id].retryCount == 0
        && (forall t :: IsReady(after.working.jobs[id], t) <==> now <= t)
      else after == w
  {
  }

  /** A full pass does to the shop what it does to the templates it came to.  Their rows are durable if it comes to its end,
      failed listing included; if the process dies in it, the database is what was committed before. */
  lemma FullPassMeans(cfg: Config, w: World, count: nat, plans: seq<ProductSync.ProductPlan>, now: int, finishes: bool)
    requires JobsBounded(w)
    ensures var after := Runs.FullPass(cfg, w, count, plans, now, finishes);
      var reached := if count < |cfg.templates| then cfg.templates[..count] else cfg.templates;
      var pass := CataloguePass.Pass(ShelfOf(w), cfg.variants, reached, plans).shelf;
      && after.woo == pass.woo && after.odoo == w.odoo && after.working == after.committed
      && after.committed.mappings == (if finishes then pass.mappings else w.committed.mappings)
      && after.committed.orders == (if finishes then w.working.orders else w.committed.orders)
      && (if finishes then JobsKept(w.working.jobs, after.committed.jobs) else after.committed == w.committed)
  {
    assert cfg.templates[..|cfg.templates|] == cfg.templates;
    var reached := if count < |cfg.templates| then cfg.templates[..count] else cfg.templates;
    CatalogueRuns.SyncTemplatesIsPass(cfg, w, reached, plans, now);
    Runs.SyncTemplatesFrame(cfg, w, reached, plans, now);
  }
}
