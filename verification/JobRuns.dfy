/** What holds of the failed jobs over every run. */
module JobRuns {
  import opened Outcomes
  import opened Tables
  import opened Worlds
  import opened OrderSync
  import opened RetryQueue
  import opened Runs

  // ---------- job rows never disappear ----------

  /** Between transactions and within a retry pass, the session and the database hold the same job rows. */
  ghost predicate KeysSettled(w: World) {
    JobsBounded(w) && w.working.jobs.Keys == w.committed.jobs.Keys
  }

  function ApiFailures(cfg: Config, w: World, qs: seq<OdooProduct>, plans: seq<ProductSync.ProductPlan>, now: int): nat {
    if qs == [] then 0
    else
      var n := |qs| - 1;
      ApiFailures(cfg, w, qs[..n], plans, now)
      + Bit(SyncTemplate(cfg, SyncTemplates(cfg, w, qs[..n], plans, now), qs[n], CataloguePass.PlanOf(plans, n), now).action
            == ProductSync.FailedWith(Api))
  }

  function SkuFailures(cfg: Config, w: World, sku: string, search: Option<Fault>, plan: ProductSync.ProductPlan,
      now: int): nat {
    match TemplateWithCode(cfg.templates, sku)
    case None => 0
    case Some(p) => Bit(search.None? && SyncTemplate(cfg, w, p, plan, now).action == ProductSync.FailedWith(Api))
  }

  function ExecutionFailures(cfg: Config, w: World, work: Work, plan: JobPlan): nat {
    match work
    case OrderWork(id) => Bit(plan.authenticated && id != 0 && SyncOrder(cfg, w, id, plan.visit).raised)
    case ProductWork(sku) =>
      if plan.authenticated && sku != "" then SkuFailures(cfg, w, sku, plan.search, plan.product, plan.at) else 0
    case _ => 0
  }

  /** The failures that an operation puts on the queue for good: failed order attempts, and product attempts that
      failed with an API error in a transaction that was not lost. */
  function NewFailures(cfg: Config, w: World, op: Op): nat {
    match op
    case OrderOp(id, visit) => Bit(SyncOrder(cfg, w, id, visit).raised)
    case PayloadOp(id, visit) => Bit(id != 0 && SyncOrder(cfg, w, id, visit).raised)
    case AttemptOp(id, plan) => if id in w.working.jobs then ExecutionFailures(cfg, w, w.working.jobs[id].work, plan) else 0
    case SkuOp(sku, search, plan, now) => SkuFailures(cfg, w, sku, search, plan, now)
    case PassOp(count, plans, now, finishes) =>
      if finishes then ApiFailures(cfg, w, cfg.templates[..Fetched(cfg, count)], plans, now) else 0
    case _ => 0
  }

  lemma EnqueueCounts(cfg: Config, w: World, work: Work, now: int)
    requires JobsBounded(w)
    ensures var after := Enqueue(cfg, w, work, now);
      && |after.working.jobs.Keys| == |w.working.jobs.Keys| + 1
      && w.working.jobs.Keys <= after.working.jobs.Keys
  {
  }

  lemma SyncOrderCounts(cfg: Config, w: World, id: int, visit: Visit)
    requires KeysSettled(w)
    ensures var x := SyncOrder(cfg, w, id, visit);
      && KeysSettled(x.world)
      && w.committed.jobs.Keys <= x.world.committed.jobs.Keys
      && |x.world.committed.jobs.Keys| == |w.committed.jobs.Keys| + Bit(x.raised)
  {
    if SyncOrder(cfg, w, id, visit).raised {
      EnqueueCounts(cfg, w, OrderWork(id), visit.now);
      EnqueueCounts(cfg, Rollback(w), OrderWork(id), visit.now);
    }
  }

  lemma SyncTemplateCounts(cfg: Config, w: World, p: OdooProduct, plan: ProductSync.ProductPlan, now: int)
    requires JobsBounded(w)
    ensures var reply := SyncTemplate(cfg, w, p, plan, now);
      && JobsBounded(reply.world)
      && reply.world.committed == w.committed
      && w.working.jobs.Keys <= reply.world.working.jobs.Keys
      && |reply.world.working.jobs.Keys| == |w.working.jobs.Keys| + Bit(reply.action == ProductSync.FailedWith(Api))
  {
  }

  lemma {:induction false} SyncTemplatesCounts(cfg: Config, w: World, qs: seq<OdooProduct>,
      plans: seq<ProductSync.ProductPlan>, now: int)
    requires JobsBounded(w)
    ensures var after := SyncTemplates(cfg, w, qs, plans, now);
      && JobsBounded(after)
      && after.committed == w.committed
      && w.working.jobs.Keys <= after.working.jobs.Keys
      && |after.working.jobs.Keys| == |w.working.jobs.Keys| + ApiFailures(cfg, w, qs, plans, now)
  {
    if qs != [] {
      var n := |qs| - 1;
      SyncTemplatesCounts(cfg, w, qs[..n], plans, now);
      SyncTemplateCounts(cfg, SyncTemplates(cfg, w, qs[..n], plans, now), qs[n], CataloguePass.PlanOf(plans, n), now);
    }
  }

  lemma SkuCounts(cfg: Config, w: World, sku: string, search: Option<Fault>, plan: ProductSync.ProductPlan, now: int)
    requires KeysSettled(w)
    ensures var x := SyncBySku(cfg, w, sku, search, plan, now);
      && KeysSettled(x.world)
      && w.committed.jobs.Keys <= x.world.committed.jobs.Keys
      && |x.world.committed.jobs.Keys| == |w.committed.jobs.Keys| + SkuFailures(cfg, w, sku, search, plan, now)
  {
    match TemplateWithCode(cfg.templates, sku) {
      case None =>
      case Some(p) => SyncTemplateCounts(cfg, w, p, plan, now);
    }
  }

  lemma ExecuteCounts(cfg: Config, w: World, work: Work, plan: JobPlan)
    requires KeysSettled(w)
    ensures var x := Execute(cfg, w, work, plan).world;
      && KeysSettled(x)
      && w.committed.jobs.Keys <= x.committed.jobs.Keys
      && |x.committed.jobs.Keys| == |w.committed.jobs.Keys| + ExecutionFailures(cfg, w, work, plan)
  {
    match work {
      case OrderWork(o) => SyncOrderCounts(cfg, w, o, plan.visit);
      case ProductWork(sku) => SkuCounts(cfg, w, sku, plan.search, plan.product, plan.at);
      case InventoryWork(_) =>
      case UnknownWork =>
    }
  }

  lemma JobUpdateCounts(w: World, id: nat, job: Job)
    requires KeysSettled(w) && id in w.working.jobs
    ensures KeysSettled(w.(working := w.working.(jobs := w.working.jobs[id := job])))
  {
    assert w.working.jobs[id := job].Keys == w.working.jobs.Keys;
  }

  lemma AttemptCounts(cfg: Config, w: World, id: nat, plan: JobPlan)
    requires KeysSettled(w)
    ensures var after := AttemptJob(cfg, w, id, plan);
      && KeysSettled(after)
      && w.committed.jobs.Keys <= after.committed.jobs.Keys
      && |after.committed.jobs.Keys| == |w.committed.jobs.Keys| + NewFailures(cfg, w, AttemptOp(id, plan))
  {
    if id in w.working.jobs {
      var x := Execute(cfg, w, w.working.jobs[id].work, plan);
      ExecuteCounts(cfg, w, w.working.jobs[id].work, plan);
      assert id in w.committed.jobs.Keys && id in x.world.working.jobs.Keys;
      JobUpdateCounts(x.world, id, Stepped(cfg, x.world.working.jobs[id], x.raised, plan.at));
    }
  }

  lemma DeathCounts(cfg: Config, w: World, id: int, visit: Visit)
    requires KeysSettled(w)
    ensures KeysSettled(DieInOrder(cfg, w, id, visit)) && DieInOrder(cfg, w, id, visit).committed == w.committed
  {
  }

  ghost predicate Counted(before: World, after: World, failures: nat) {
    && KeysSettled(after)
    && before.committed.jobs.Keys <= after.committed.jobs.Keys
    && |after.committed.jobs.Keys| == |before.committed.jobs.Keys| + failures
  }

  lemma OrderStepCounts(cfg: Config, w: World, op: Op)
    requires KeysSettled(w) && (op.OrderOp? || op.PayloadOp? || op.DeathOp? || op.CancelOp? || op.RefundOp?)
    ensures Counted(w, Step(cfg, w, op), NewFailures(cfg, w, op))
  {
    match op {
      case OrderOp(id, visit) => SyncOrderCounts(cfg, w, id, visit);
      case PayloadOp(id, visit) => SyncOrderCounts(cfg, w, id, visit);
      case DeathOp(id, visit) => DeathCounts(cfg, w, id, visit);
      case _ =>
    }
  }

  lemma StepCounts(cfg: Config, w: World, op: Op)
    requires KeysSettled(w)
    ensures Counted(w, Step(cfg, w, op), NewFailures(cfg, w, op))
  {
    match op {
      case OrderOp(_, _) => OrderStepCounts(cfg, w, op);
      case PayloadOp(_, _) => OrderStepCounts(cfg, w, op);
      case DeathOp(_, _) => OrderStepCounts(cfg, w, op);
      case CancelOp(_, _) => OrderStepCounts(cfg, w, op);
      case RefundOp(_) => OrderStepCounts(cfg, w, op);
      case AttemptOp(id, plan) => AttemptCounts(cfg, w, id, plan);
      case RequeueOp(id, now) =>
        assert Requeue(w, id, now).working.jobs.Keys == w.working.jobs.Keys;
      case SkuOp(sku, search, plan, now) => SkuCounts(cfg, w, sku, search, plan, now);
      case PassOp(count, plans, now, _) => SyncTemplatesCounts(cfg, w, cfg.templates[..Fetched(cfg, count)], plans, now);
      case _ =>
    }
  }

  function NewFailuresIn(cfg: Config, w: World, ops: seq<Op>): nat {
    if ops == [] then 0
    else NewFailuresIn(cfg, w, ops[..|ops| - 1]) + NewFailures(cfg, Run(cfg, w, ops[..|ops| - 1]), ops[|ops| - 1])
  }

  /** Over every run no job row disappears, and the table grows by exactly one row per failure put on the queue. */
  lemma {:induction false} RunCounts(cfg: Config, w: World, ops: seq<Op>)
    requires KeysSettled(w)
    ensures var end := Run(cfg, w, ops);
      && KeysSettled(end)
      && w.committed.jobs.Keys <= end.committed.jobs.Keys
      && |end.committed.jobs.Keys| == |w.committed.jobs.Keys| + NewFailuresIn(cfg, w, ops)
  {
    if ops != [] {
      var n := |ops| - 1;
      RunCounts(cfg, w, ops[..n]);
      StepCounts(cfg, Run(cfg, w, ops[..n]), ops[n]);
    }
  }
}
