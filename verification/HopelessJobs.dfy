/** Retry jobs that cannot succeed: the SKU derived for a parent without a code is not the code of any template. */
module HopelessJobs {
  import opened Outcomes
  import opened Tables
  import opened FailedJobs
  import opened Worlds
  import opened RetryQueue
  import opened Runs
  import opened QueueRuns
  import opened CatalogueRuns

  /** A product job not yet resolved, whose SKU the template search of a retry does not find. */
  ghost predicate Hopeless(cfg: Config, jobs: map<nat, Job>, id: nat) {
    && id in jobs
    && jobs[id].work.ProductWork? && jobs[id].work.sku != ""
    && TemplateWithCode(cfg.templates, jobs[id].work.sku).None?
    && !jobs[id].status.Resolved?
  }

  lemma AddsKeepHopeless(cfg: Config, w: World, after: World, id: nat)
    requires AddsTo(cfg, w, after) && Hopeless(cfg, w.working.jobs, id) && Hopeless(cfg, w.committed.jobs, id)
    ensures Hopeless(cfg, after.working.jobs, id) && Hopeless(cfg, after.committed.jobs, id)
  {
  }

  lemma StepKeepsHopeless(cfg: Config, w: World, op: Op, id: nat)
    requires JobsBounded(w) && Hopeless(cfg, w.working.jobs, id) && Hopeless(cfg, w.committed.jobs, id)
    ensures Hopeless(cfg, Step(cfg, w, op).working.jobs, id) && Hopeless(cfg, Step(cfg, w, op).committed.jobs, id)
  {
    match op {
      case AttemptOp(k, plan) =>
        if k in w.working.jobs {
          ExecuteAdds(cfg, w, w.working.jobs[k].work, plan);
          AddsKeepHopeless(cfg, w, Execute(cfg, w, w.working.jobs[k].work, plan).world, id);
        }
      case RequeueOp(k, now) =>
      case _ =>
        StepAdds(cfg, w, op);
        AddsKeepHopeless(cfg, w, Step(cfg, w, op), id);
    }
  }

  /** No run resolves a hopeless job, however often it is retried, automatically or by hand. */
  lemma {:induction false} HopelessForever(cfg: Config, w: World, ops: seq<Op>, id: nat)
    requires JobsBounded(w) && Hopeless(cfg, w.working.jobs, id) && Hopeless(cfg, w.committed.jobs, id)
    ensures JobsBounded(Run(cfg, w, ops))
    ensures Hopeless(cfg, Run(cfg, w, ops).working.jobs, id) && Hopeless(cfg, Run(cfg, w, ops).committed.jobs, id)
  {
    if ops != [] {
      var n := |ops| - 1;
      HopelessForever(cfg, w, ops[..n], id);
      OrderRuns.StepBounds(cfg, Run(cfg, w, ops[..n]), ops[n]);
      StepKeepsHopeless(cfg, Run(cfg, w, ops[..n]), ops[n], id);
    }
  }

  /** So it is with the job of a variable product that has no code of its own and failed with an API error:
      it is queued under its derived SKU, and no retry ever resolves it unless some template has that code. */
  lemma DerivedSkuIsHopeless(cfg: Config, w: World, p: OdooProduct, plan: ProductSync.ProductPlan, now: int, ops: seq<Op>)
    requires JobsBounded(w) && p.code == "" && TemplateWithCode(cfg.templates, p.derived).None?
    requires SyncTemplate(cfg, w, p, plan, now).action == ProductSync.FailedWith(Api)
    ensures var end := Run(cfg, Commit(SyncTemplate(cfg, w, p, plan, now).world), ops);
      && w.nextJob in end.committed.jobs
      && end.committed.jobs[w.nextJob].work == ProductWork(p.derived)
      && !end.committed.jobs[w.nextJob].status.Resolved?
  {
    var start := Commit(SyncTemplate(cfg, w, p, plan, now).world);
    SyncTemplateFrame(cfg, w, p, plan, now);
    HopelessForever(cfg, start, ops, w.nextJob);
    WorkIsKept(cfg, start, ops, w.nextJob);
  }

  /** While SKUs are distinct, no template has a derived SKU as its code, so every such job is hopeless. */
  lemma DerivedSkuIsNobodysCode(cfg: Config, p: OdooProduct)
    requires ProductSync.DistinctProducts(cfg.templates) && p in cfg.templates
    requires p.code == "" && p.variantCount > 1 && p.derived != ""
    ensures TemplateWithCode(cfg.templates, p.derived).None?
  {
    forall q | q in cfg.templates ensures q.code != p.derived {
      if q != p && q.code != "" {
        ProductSync.DifferentProducts(cfg.templates, p, q);
      }
    }
    FoundTemplate(cfg.templates, p.derived);
  }

  /** The condition is exact: when a template has the SKU as its code, an attempt in which no call fails resolves the
      job.  For a derived SKU that template is another one than the one that failed, which stays as it is. */
  lemma FoundSkuResolves(cfg: Config, w: World, id: nat, plan: JobPlan)
    requires JobsBounded(w) && id in w.working.jobs
    requires w.working.jobs[id].work.ProductWork? && w.working.jobs[id].work.sku != ""
    requires TemplateWithCode(cfg.templates, w.working.jobs[id].work.sku).Some?
    requires plan.authenticated && plan.search.None? && CataloguePass.IsSmooth(plan.product)
    ensures var jobs := AttemptJob(cfg, w, id, plan).working.jobs;
      id in jobs && jobs[id] == Closed(w.working.jobs[id], plan.at)
  {
    var sku := w.working.jobs[id].work.sku;
    FoundTemplate(cfg.templates, sku);
    SyncBySkuFrame(cfg, w, sku, plan.search, plan.product, plan.at);
    assert !Execute(cfg, w, ProductWork(sku), plan).raised;
  }

  /** A job never changes what it repeats. */
  lemma {:induction false} WorkIsKept(cfg: Config, w: World, ops: seq<Op>, id: nat)
    requires JobsBounded(w) && id in w.working.jobs && id in w.committed.jobs && w.working.jobs[id].work == w.committed.jobs[id].work
    ensures var end := Run(cfg, w, ops);
      && JobsBounded(end)
      && id in end.working.jobs && id in end.committed.jobs
      && end.working.jobs[id].work == end.committed.jobs[id].work == w.committed.jobs[id].work
  {
    if ops != [] {
      var n := |ops| - 1;
      WorkIsKept(cfg, w, ops[..n], id);
      OrderRuns.StepBounds(cfg, Run(cfg, w, ops[..n]), ops[n]);
      StepKeepsWork(cfg, Run(cfg, w, ops[..n]), ops[n], id);
    }
  }

  lemma StepKeepsWork(cfg: Config, w: World, op: Op, id: nat)
    requires JobsBounded(w) && id in w.working.jobs && id in w.committed.jobs && w.working.jobs[id].work == w.committed.jobs[id].work
    ensures var after := Step(cfg, w, op);
      && id in after.working.jobs && id in after.committed.jobs
      && after.working.jobs[id].work == after.committed.jobs[id].work == w.committed.jobs[id].work
  {
    match op {
      case AttemptOp(k, plan) =>
        if k in w.working.jobs {
          ExecuteAdds(cfg, w, w.working.jobs[k].work, plan);
        }
      case RequeueOp(k, now) =>
      case _ => StepAdds(cfg, w, op);
    }
  }
}
