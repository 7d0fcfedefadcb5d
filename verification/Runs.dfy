/** Runs of the whole platform: any sequence of transactions and of their parts, with crashes anywhere between them. */
module Runs {
  import opened Outcomes
  import opened Tables
  import opened FailedJobs
  import opened Worlds
  import opened OrderSync
  import opened RetryQueue
  import WooApi

  datatype Op =
    | OrderOp(order: int, visit: Visit)                                   // sync_order
    | PayloadOp(order: int, visit: Visit)                                 // sync_order_from_payload
    | DeathOp(order: int, visit: Visit)                                   // the process dies in sync_order
    | CancelOp(order: int, call: Call)                                    // handle_order_cancelled
    | RefundOp(order: int)                                                // handle_order_refunded
    | AttemptOp(job: nat, plan: JobPlan)                                  // one job of the retry queue, not yet committed
    | RequeueOp(job: nat, now: int)                                       // manual retry whose dispatch failed
    | SkuOp(sku: string, search: Option<Fault>, product: ProductSync.ProductPlan, now: int)     // sync_product_by_sku
    | PassOp(count: nat, plans: seq<ProductSync.ProductPlan>, now: int, finishes: bool)         // sync_all_products
    | CommitOp                                                            // end of a pass or of a single retry
    | CloseOp                                                             // the session is closed, or the process dies
    | ShopOp(gone: Id)                                                    // a product is deleted in the shop
    | VariationOp(gone: Id)                                               // a single variation is deleted in the shop

  /** The retry endpoint resets a pending or dead job; any other status is refused. */
  function Requeue(w: World, id: nat, now: int): World {
    if id in w.working.jobs && IsOpen(w.working.jobs[id]) then
      Commit(w.(working := w.working.(jobs := w.working.jobs[id := Requeued(w.working.jobs[id], now)])))
    else w
  }

  function Fetched(cfg: Config, count: nat): (n: nat)
    ensures n <= |cfg.templates|
  {
    if count <= |cfg.templates| then count else |cfg.templates|
  }

  /** A full product pass over the first count templates.  Fetching may fail after any page, and then what was
      done is committed; or the process dies, and then everything uncommitted is lost. */
  function FullPass(cfg: Config, w: World, count: nat, plans: seq<ProductSync.ProductPlan>, now: int,
      finishes: bool): World {
    var done := SyncTemplates(cfg, w, cfg.templates[..Fetched(cfg, count)], plans, now);
    if finishes then Commit(done) else Rollback(done)
  }

  function Step(cfg: Config, w: World, op: Op): World {
    match op
    case OrderOp(id, visit) => SyncOrder(cfg, w, id, visit).world
    case PayloadOp(id, visit) => SyncOrderFromPayload(cfg, w, id, visit).world
    case DeathOp(id, visit) => DieInOrder(cfg, w, id, visit)
    case CancelOp(id, call) => CancelOrder(w, id, call)
    case RefundOp(id) => RefundOrder(w, id)
    case AttemptOp(id, plan) => AttemptJob(cfg, w, id, plan)
    case RequeueOp(id, now) => Requeue(w, id, now)
    case SkuOp(sku, search, plan, now) => SyncBySku(cfg, w, sku, search, plan, now).world
    case PassOp(count, plans, now, finishes) => FullPass(cfg, w, count, plans, now, finishes)
    case CommitOp => Commit(w)
    case CloseOp => Rollback(w)
    case ShopOp(x) => w.(woo := WooApi.DeleteProduct(w.woo, x))
    case VariationOp(z) => w.(woo := WooApi.DeleteVariation(w.woo, z))
  }

  function Run(cfg: Config, w: World, ops: seq<Op>): World {
    if ops == [] then w else Step(cfg, Run(cfg, w, ops[..|ops| - 1]), ops[|ops| - 1])
  }

  /** The operations of one retry pass. */
  function PassOps(ready: seq<nat>, plans: seq<JobPlan>): seq<Op>
    requires |ready| == |plans|
  {
    seq(|ready|, k requires 0 <= k < |ready| => AttemptOp(ready[k], plans[k])) + [CommitOp]
  }

  lemma {:induction false} AttemptsRun(cfg: Config, w: World, ready: seq<nat>, plans: seq<JobPlan>, n: nat)
    requires |ready| == |plans| && n <= |ready|
    ensures Run(cfg, w, PassOps(ready, plans)[..n]) == Before(cfg, w, ready, plans, n)
  {
    var ops := PassOps(ready, plans);
    if n > 0 {
      AttemptsRun(cfg, w, ready, plans, n - 1);
      AttemptAllStep(cfg, w, ready, plans, n);
      assert ops[..n][..n - 1] == ops[..n - 1] && ops[..n][n - 1] == AttemptOp(ready[n - 1], plans[n - 1]);
    }
  }

  /** A retry pass is the run of its operations, so everything proved of runs holds of passes and within them. */
  lemma PassIsRun(cfg: Config, w: World, ready: seq<nat>, plans: seq<JobPlan>)
    requires |ready| == |plans|
    ensures Run(cfg, w, PassOps(ready, plans)) == RetryPass(cfg, w, ready, plans)
  {
    var ops := PassOps(ready, plans);
    var n := |ready|;
    AttemptsRun(cfg, w, ready, plans, n);
    assert ready[..n] == ready && plans[..n] == plans;
    assert ops[..|ops| - 1] == ops[..n] && ops[|ops| - 1] == CommitOp;
  }

  // ---------- what product synchronisation leaves alone ----------

  ghost predicate OnlyNewJobs(cfg: Config, before: map<nat, Job>, after: map<nat, Job>) {
    && JobsKept(before, after)
    && forall id :: id in after && id !in before ==>
         exists work, now :: after[id] == NewJob(work, cfg.maxRetries, cfg.delays, now)
  }

  lemma OnlyNewJobsTrans(cfg: Config, a: map<nat, Job>, b: map<nat, Job>, c: map<nat, Job>)
    requires OnlyNewJobs(cfg, a, b) && OnlyNewJobs(cfg, b, c)
    ensures OnlyNewJobs(cfg, a, c)
  {
  }

  /** Product synchronisation touches the mappings and the shop, and may add jobs. */
  ghost predicate ProductFrame(cfg: Config, w: World, after: World) {
    && after.committed == w.committed
    && after.odoo == w.odoo
    && after.working.orders == w.working.orders
    && after.working.customers == w.working.customers
    && OnlyNewJobs(cfg, w.working.jobs, after.working.jobs)
    && JobsBounded(after)
  }

  lemma SyncTemplateFrame(cfg: Config, w: World, p: OdooProduct, plan: ProductSync.ProductPlan, now: int)
    requires JobsBounded(w)
    ensures ProductFrame(cfg, w, SyncTemplate(cfg, w, p, plan, now).world)
  {
  }

  lemma {:induction false} SyncTemplatesFrame(cfg: Config, w: World, qs: seq<OdooProduct>,
      plans: seq<ProductSync.ProductPlan>, now: int)
    requires JobsBounded(w)
    ensures ProductFrame(cfg, w, SyncTemplates(cfg, w, qs, plans, now))
  {
    if qs != [] {
      var n := |qs| - 1;
      SyncTemplatesFrame(cfg, w, qs[..n], plans, now);
      var before := SyncTemplates(cfg, w, qs[..n], plans, now);
      SyncTemplateFrame(cfg, before, qs[n], CataloguePass.PlanOf(plans, n), now);
      OnlyNewJobsTrans(cfg, w.working.jobs, before.working.jobs, SyncTemplates(cfg, w, qs, plans, now).working.jobs);
    }
  }

  lemma SyncBySkuFrame(cfg: Config, w: World, sku: string, search: Option<Fault>, plan: ProductSync.ProductPlan, now: int)
    requires JobsBounded(w)
    ensures var x := SyncBySku(cfg, w, sku, search, plan, now);
      && x.world.odoo == w.odoo
      && x.world.working.orders == w.working.orders && x.world.working.customers == w.working.customers
      && OnlyNewJobs(cfg, w.working.jobs, x.world.working.jobs) && JobsBounded(x.world)
      && (x.ending.Leaves? ==> x.world == w)
      && (x.ending.Commits? ==> x.world.committed == x.world.working)
      && !x.ending.RollsBack?
  {
    match TemplateWithCode(cfg.templates, sku) {
      case None =>
      case Some(p) => SyncTemplateFrame(cfg, w, p, plan, now);
    }
  }
}
