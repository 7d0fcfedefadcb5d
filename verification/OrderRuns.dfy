/** What holds of orders, partners and sale orders over every run. */
module OrderRuns {
  import opened Tables
  import opened OdooApi
  import opened CustomerSync
  import opened Worlds
  import opened OrderSync
  import opened RetryQueue
  import opened Runs

  // ---------- synced rows and partners ----------

  lemma ExecuteOrdersSound(cfg: Config, w: World, work: Work, plan: JobPlan)
    requires OrdersSound(w) && JobsBounded(w)
    ensures var x := Execute(cfg, w, work, plan);
      OrdersSound(x.world) && NoDuplicatePartners(w.odoo, x.world.odoo)
  {
    SamePartners(w.odoo, w.odoo);
    match work {
      case OrderWork(id) => SyncOrderSound(cfg, w, id, plan.visit);
      case ProductWork(sku) => SyncBySkuFrame(cfg, w, sku, plan.search, plan.product, plan.at);
      case InventoryWork(_) =>
      case UnknownWork =>
    }
  }

  lemma StepBounds(cfg: Config, w: World, op: Op)
    requires JobsBounded(w)
    ensures JobsBounded(Step(cfg, w, op))
  {
    match op {
      case AttemptOp(id, plan) => AttemptKeepsBounds(cfg, w, id, plan);
      case SkuOp(sku, search, plan, now) => SyncBySkuFrame(cfg, w, sku, search, plan, now);
      case PassOp(count, plans, now, _) =>
        SyncTemplatesFrame(cfg, w, cfg.templates[..Fetched(cfg, count)], plans, now);
      case _ =>
    }
  }

  lemma AttemptOrdersSound(cfg: Config, w: World, id: nat, plan: JobPlan)
    requires OrdersSound(w) && JobsBounded(w)
    ensures OrdersSound(AttemptJob(cfg, w, id, plan))
    ensures NoDuplicatePartners(w.odoo, AttemptJob(cfg, w, id, plan).odoo)
  {
    SamePartners(w.odoo, w.odoo);
    if id in w.working.jobs {
      ExecuteOrdersSound(cfg, w, w.working.jobs[id].work, plan);
    }
  }

  lemma StepOrdersSound(cfg: Config, w: World, op: Op)
    requires OrdersSound(w) && JobsBounded(w)
    ensures OrdersSound(Step(cfg, w, op)) && NoDuplicatePartners(w.odoo, Step(cfg, w, op).odoo)
  {
    SamePartners(w.odoo, w.odoo);
    match op {
      case OrderOp(id, visit) => SyncOrderSound(cfg, w, id, visit);
      case PayloadOp(id, visit) => SyncOrderSound(cfg, w, id, visit);
      case DeathOp(id, visit) => DeathSound(cfg, w, id, visit);
      case CancelOp(id, call) => CancelSound(w, id, call);
      case AttemptOp(id, plan) => AttemptOrdersSound(cfg, w, id, plan);
      case SkuOp(sku, search, plan, now) => SyncBySkuFrame(cfg, w, sku, search, plan, now);
      case PassOp(count, plans, now, _) =>
        SyncTemplatesFrame(cfg, w, cfg.templates[..Fetched(cfg, count)], plans, now);
      case _ =>
    }
  }

  /** In every reachable state, in the middle of a pass too, order rows are durable, a synced row names a
      confirmed sale order made for that very order, and no partner was ever duplicated. */
  lemma {:induction false} RunOrdersSound(cfg: Config, w: World, ops: seq<Op>)
    requires OrdersSound(w) && JobsBounded(w)
    ensures JobsBounded(Run(cfg, w, ops))
    ensures OrdersSound(Run(cfg, w, ops))
    ensures NoDuplicatePartners(w.odoo, Run(cfg, w, ops).odoo)
  {
    if ops == [] {
      NoDuplicatePartnersRefl(w.odoo);
    } else {
      var n := |ops| - 1;
      var before := Run(cfg, w, ops[..n]);
      RunOrdersSound(cfg, w, ops[..n]);
      StepBounds(cfg, before, ops[n]);
      StepOrdersSound(cfg, before, ops[n]);
      NoDuplicatePartnersTrans(w.odoo, before.odoo, Run(cfg, w, ops).odoo);
    }
  }

  // ---------- the sale order account over runs ----------

  /** The operation moved the row of this order out of SYNCED. */
  function Leaving(w: World, op: Op, order: int): nat {
    match op
    case CancelOp(id, call) =>
      Bit(id == order && IsSynced(w.working, order)
          && !(w.working.orders[order].odooOrder.Some? && !call.Ok? && call.fault.Other?))
    case RefundOp(id) => Bit(id == order && IsSynced(w.working, order))
    case _ => 0
  }

  /** The operation made a sale order for this order and then failed or died. */
  function Orphaning(cfg: Config, w: World, op: Op, order: int): nat {
    match op
    case OrderOp(id, visit) => if id == order then Orphans(cfg, w, id, visit) else 0
    case PayloadOp(id, visit) => if id == order && id != 0 then Orphans(cfg, w, id, visit) else 0
    case DeathOp(id, visit) => if id == order then DeathOrphans(cfg, w, id, visit) else 0
    case AttemptOp(job, plan) =>
      if job in w.working.jobs && w.working.jobs[job].work == OrderWork(order) && order != 0 && plan.authenticated
      then Orphans(cfg, w, order, plan.visit) else 0
    case _ => 0
  }

  /** The sale orders of one order and its synced bit moved as the given numbers of departures and orphans say. */
  ghost predicate Accounted(before: World, after: World, order: int, leaving: nat, orphaning: nat) {
    |Created(after.odoo, order)| + Bit(IsSynced(before.committed, order))
    == |Created(before.odoo, order)| + Bit(IsSynced(after.committed, order)) + leaving + orphaning
  }

  /** What leaves sale orders and order rows alone. */
  lemma UntouchedAccount(w: World, after: World, order: int)
    requires OrdersSound(w) && after.odoo == w.odoo
    requires after.committed.orders == w.committed.orders
    ensures Accounted(w, after, order, 0, 0)
  {
  }

  lemma CatalogueAccount(cfg: Config, w: World, op: Op, order: int)
    requires OrdersSound(w) && JobsBounded(w) && (op.SkuOp? || op.PassOp?)
    ensures Accounted(w, Step(cfg, w, op), order, 0, 0)
  {
    match op {
      case SkuOp(sku, search, plan, now) => SyncBySkuFrame(cfg, w, sku, search, plan, now);
      case PassOp(count, plans, now, _) =>
        SyncTemplatesFrame(cfg, w, cfg.templates[..Fetched(cfg, count)], plans, now);
    }
    UntouchedAccount(w, Step(cfg, w, op), order);
  }

  lemma OrderJobAccount(cfg: Config, w: World, o: int, plan: JobPlan, order: int)
    requires OrdersSound(w)
    ensures Accounted(w, Execute(cfg, w, OrderWork(o), plan).world, order, 0,
      if o == order && order != 0 && plan.authenticated then Orphans(cfg, w, order, plan.visit) else 0)
  {
    SyncOrderAccount(cfg, w, o, plan.visit, order);
  }

  lemma OtherJobAccount(cfg: Config, w: World, work: Work, plan: JobPlan, order: int)
    requires OrdersSound(w) && JobsBounded(w) && !work.OrderWork?
    ensures Accounted(w, Execute(cfg, w, work, plan).world, order, 0, 0)
  {
    if work.ProductWork? {
      SyncBySkuFrame(cfg, w, work.sku, plan.search, plan.product, plan.at);
    }
    UntouchedAccount(w, Execute(cfg, w, work, plan).world, order);
  }

  lemma AttemptAccount(cfg: Config, w: World, id: nat, plan: JobPlan, order: int)
    requires OrdersSound(w) && JobsBounded(w)
    ensures Accounted(w, AttemptJob(cfg, w, id, plan), order, 0, Orphaning(cfg, w, AttemptOp(id, plan), order))
  {
    if id in w.working.jobs {
      var work := w.working.jobs[id].work;
      if work.OrderWork? {
        OrderJobAccount(cfg, w, work.order, plan, order);
      } else {
        OtherJobAccount(cfg, w, work, plan, order);
      }
    }
  }

  lemma OrderStepAccount(cfg: Config, w: World, op: Op, order: int)
    requires OrdersSound(w) && (op.OrderOp? || op.PayloadOp? || op.DeathOp? || op.CancelOp? || op.RefundOp?)
    ensures Accounted(w, Step(cfg, w, op), order, Leaving(w, op, order), Orphaning(cfg, w, op, order))
  {
    match op {
      case OrderOp(id, visit) => SyncOrderAccount(cfg, w, id, visit, order);
      case PayloadOp(id, visit) => SyncOrderAccount(cfg, w, id, visit, order);
      case DeathOp(id, visit) => DeathAccount(cfg, w, id, visit, order);
      case CancelOp(id, call) => CancelAccount(w, id, call, order);
      case RefundOp(id) =>
    }
  }

  lemma StepAccount(cfg: Config, w: World, op: Op, order: int)
    requires OrdersSound(w) && JobsBounded(w)
    ensures Accounted(w, Step(cfg, w, op), order, Leaving(w, op, order), Orphaning(cfg, w, op, order))
  {
    if op.OrderOp? || op.PayloadOp? || op.DeathOp? || op.CancelOp? || op.RefundOp? {
      OrderStepAccount(cfg, w, op, order);
    } else if op.AttemptOp? {
      AttemptAccount(cfg, w, op.job, op.plan, order);
    } else if op.SkuOp? || op.PassOp? {
      CatalogueAccount(cfg, w, op, order);
    } else {
      UntouchedAccount(w, Step(cfg, w, op), order);
    }
  }

  function LeavingIn(cfg: Config, w: World, ops: seq<Op>, order: int): nat {
    if ops == [] then 0
    else LeavingIn(cfg, w, ops[..|ops| - 1], order) + Leaving(Run(cfg, w, ops[..|ops| - 1]), ops[|ops| - 1], order)
  }

  function OrphaningIn(cfg: Config, w: World, ops: seq<Op>, order: int): nat {
    if ops == [] then 0
    else OrphaningIn(cfg, w, ops[..|ops| - 1], order) + Orphaning(cfg, Run(cfg, w, ops[..|ops| - 1]), ops[|ops| - 1], order)
  }

  lemma {:induction false} RunAccount(cfg: Config, w: World, ops: seq<Op>, order: int)
    requires OrdersSound(w) && JobsBounded(w)
    ensures var end := Run(cfg, w, ops);
      |Created(end.odoo, order)| + Bit(IsSynced(w.committed, order))
      == |Created(w.odoo, order)| + Bit(IsSynced(end.committed, order)) + LeavingIn(cfg, w, ops, order) + OrphaningIn(cfg, w, ops, order)
  {
    if ops != [] {
      var n := |ops| - 1;
      RunAccount(cfg, w, ops[..n], order);
      RunOrdersSound(cfg, w, ops[..n]);
      StepAccount(cfg, Run(cfg, w, ops[..n]), ops[n], order);
    }
  }

  /** The sale orders made for an order the platform has never seen are exactly: the one its synced row
      names, one for each time the row left SYNCED, and one for each attempt that failed or died after creating one.
      Hence at most one plus those two counts. */
  lemma SaleOrderAccount(cfg: Config, w: World, ops: seq<Op>, order: int)
    requires OrdersSound(w) && JobsBounded(w)
    requires Created(w.odoo, order) == {} && order !in w.committed.orders
    ensures var end := Run(cfg, w, ops);
      && |Created(end.odoo, order)|
         == Bit(IsSynced(end.committed, order)) + LeavingIn(cfg, w, ops, order) + OrphaningIn(cfg, w, ops, order)
      && |Created(end.odoo, order)| <= 1 + LeavingIn(cfg, w, ops, order) + OrphaningIn(cfg, w, ops, order)
  {
    RunAccount(cfg, w, ops, order);
  }

  // ---------- a success is never repeated ----------

  ghost predicate LeavesAlone(op: Op, order: int) {
    && (op.CancelOp? ==> op.order != order)
    && (op.RefundOp? ==> op.order != order)
  }

  lemma AttemptKeepsSynced(cfg: Config, w: World, id: nat, plan: JobPlan, order: int)
    requires OrdersSound(w) && JobsBounded(w) && IsSynced(w.committed, order)
    ensures var after := AttemptJob(cfg, w, id, plan);
      && IsSynced(after.committed, order) && after.committed.orders[order] == w.committed.orders[order]
      && Created(after.odoo, order) == Created(w.odoo, order)
  {
    if id in w.working.jobs {
      match w.working.jobs[id].work {
        case OrderWork(o) => SyncKeepsSynced(cfg, w, o, plan.visit, order);
        case ProductWork(sku) => SyncBySkuFrame(cfg, w, sku, plan.search, plan.product, plan.at);
        case InventoryWork(_) =>
        case UnknownWork =>
      }
    }
  }

  lemma SyncKeepsSynced(cfg: Config, w: World, id: int, visit: Visit, order: int)
    requires OrdersSound(w) && IsSynced(w.committed, order)
    ensures var after := SyncOrder(cfg, w, id, visit).world;
      && IsSynced(after.committed, order) && after.committed.orders[order] == w.committed.orders[order]
      && Created(after.odoo, order) == Created(w.odoo, order)
  {
    if !IsSynced(w.working, id) && visit.fetched.Some? {
      var a := ProcessOrder(cfg, w, id, visit.fetched.value, visit.plan);
      ProcessOrderSound(cfg, w, id, visit.fetched.value, visit.plan);
      assert Created(a.odoo, order) == Created(w.odoo, order);
    }
  }

  lemma DeathKeepsSynced(cfg: Config, w: World, id: int, visit: Visit, order: int)
    requires OrdersSound(w) && IsSynced(w.committed, order)
    ensures var after := DieInOrder(cfg, w, id, visit);
      && after.committed.orders == w.committed.orders && Created(after.odoo, order) == Created(w.odoo, order)
  {
    if !IsSynced(w.working, id) && visit.fetched.Some? {
      var a := ProcessOrder(cfg, w, id, visit.fetched.value, visit.plan);
      ProcessOrderSound(cfg, w, id, visit.fetched.value, visit.plan);
      assert Created(a.odoo, order) == Created(w.odoo, order);
    }
  }

  lemma StepKeepsSynced(cfg: Config, w: World, op: Op, order: int)
    requires OrdersSound(w) && JobsBounded(w) && IsSynced(w.committed, order) && LeavesAlone(op, order)
    ensures var after := Step(cfg, w, op);
      && IsSynced(after.committed, order) && after.committed.orders[order] == w.committed.orders[order]
      && Created(after.odoo, order) == Created(w.odoo, order)
  {
    match op {
      case OrderOp(id, visit) => SyncKeepsSynced(cfg, w, id, visit, order);
      case PayloadOp(id, visit) => SyncKeepsSynced(cfg, w, id, visit, order);
      case DeathOp(id, visit) => DeathKeepsSynced(cfg, w, id, visit, order);
      case CancelOp(id, call) =>
        assert Created(CancelOrder(w, id, call).odoo, order) == Created(w.odoo, order);
      case AttemptOp(id, plan) => AttemptKeepsSynced(cfg, w, id, plan, order);
      case SkuOp(sku, search, plan, now) => SyncBySkuFrame(cfg, w, sku, search, plan, now);
      case PassOp(count, plans, now, _) =>
        SyncTemplatesFrame(cfg, w, cfg.templates[..Fetched(cfg, count)], plans, now);
      case _ =>
    }
  }

  /** Once synced, and until it is cancelled or refunded, an order keeps its row and gets no further sale
      order: not by repeated webhooks, nor by retries of jobs whose resolution was rolled back. */
  lemma {:induction false} SyncedOnceIsEnough(cfg: Config, w: World, ops: seq<Op>, order: int)
    requires OrdersSound(w) && JobsBounded(w) && IsSynced(w.committed, order)
    requires forall k :: 0 <= k < |ops| ==> LeavesAlone(ops[k], order)
    ensures var end := Run(cfg, w, ops);
      && IsSynced(end.committed, order) && end.committed.orders[order] == w.committed.orders[order]
      && Created(end.odoo, order) == Created(w.odoo, order)
  {
    if ops != [] {
      var n := |ops| - 1;
      SyncedOnceIsEnough(cfg, w, ops[..n], order);
      RunOrdersSound(cfg, w, ops[..n]);
      StepKeepsSynced(cfg, Run(cfg, w, ops[..n]), ops[n], order);
    }
  }
}
