/** No failure is forgotten, and every job follows its life cycle and its schedule, over every run. */
module QueueRuns {
  import opened Outcomes
  import opened Tables
  import opened FailedJobs
  import opened Worlds
  import opened OrderSync
  import opened RetryQueue
  import opened Runs
  import OrderRuns

  // ---------- no failure is forgotten ----------

  ghost predicate OpenJobFor(jobs: map<nat, Job>, order: int) {
    exists j :: j in jobs && jobs[j].work == OrderWork(order) && IsOpen(jobs[j])
  }

  /** A failed order has a job that is still to be retried or was given up visibly. */
  ghost predicate Remembered(db: Database) {
    forall o :: o != 0 && o in db.orders && db.orders[o].status.Failed? ==> OpenJobFor(db.jobs, o)
  }

  lemma OpenJobKept(before: map<nat, Job>, after: map<nat, Job>, order: int)
    requires JobsKept(before, after) && OpenJobFor(before, order)
    ensures OpenJobFor(after, order)
  {
  }

  lemma RememberedWithMoreJobs(db: Database, after: Database)
    requires Remembered(db) && after.orders == db.orders && JobsKept(db.jobs, after.jobs)
    ensures Remembered(after)
  {
  }

  lemma HandleOrderErrorRemembers(cfg: Config, w: World, id: int, now: int)
    requires JobsBounded(w) && Remembered(w.working)
    ensures var after := HandleOrderError(cfg, w, id, now); Remembered(after.working) && Remembered(after.committed)
  {
    var after := HandleOrderError(cfg, w, id, now);
    assert OpenJobFor(after.working.jobs, id) by {
      assert after.working.jobs[w.nextJob] == NewJob(OrderWork(id), cfg.maxRetries, cfg.delays, now);
    }
    forall o | o != 0 && o in after.working.orders && after.working.orders[o].status.Failed?
      ensures OpenJobFor(after.working.jobs, o) {
      if o != id {
        OpenJobKept(w.working.jobs, after.working.jobs, o);
      }
    }
  }

  lemma SyncOrderRemembers(cfg: Config, w: World, id: int, visit: Visit)
    requires JobsBounded(w) && Remembered(w.working) && Remembered(w.committed)
    ensures var x := SyncOrder(cfg, w, id, visit);
      && Remembered(x.world.working) && Remembered(x.world.committed)
      && (!x.raised ==> IsSynced(x.world.working, id))
  {
    if !IsSynced(w.working, id) {
      HandleOrderErrorRemembers(cfg, w, id, visit.now);
      if visit.fetched.Some? {
        var a := ProcessOrder(cfg, w, id, visit.fetched.value, visit.plan);
        HandleOrderErrorRemembers(cfg, Rollback(w).(odoo := a.odoo), id, visit.now);
      }
    }
  }

  lemma ExecuteRemembers(cfg: Config, w: World, work: Work, plan: JobPlan)
    requires JobsBounded(w) && Remembered(w.working) && Remembered(w.committed)
    ensures var x := Execute(cfg, w, work, plan);
      && Remembered(x.world.working) && Remembered(x.world.committed)
      && (!x.raised && work.OrderWork? && work.order != 0 ==> IsSynced(x.world.working, work.order))
  {
    match work {
      case OrderWork(id) => SyncOrderRemembers(cfg, w, id, plan.visit);
      case ProductWork(sku) =>
        SyncBySkuFrame(cfg, w, sku, plan.search, plan.product, plan.at);
        RememberedWithMoreJobs(w.working, SyncBySku(cfg, w, sku, plan.search, plan.product, plan.at).world.working);
      case InventoryWork(_) =>
      case UnknownWork =>
    }
  }

  /** Moving one job on keeps a failure remembered if the job stays open or its order is synced. */
  lemma JobUpdateRemembers(db: Database, id: nat, job: Job)
    requires Remembered(db) && id in db.jobs && job.work == db.jobs[id].work
    requires IsOpen(job) || !job.work.OrderWork? || job.work.order == 0 || IsSynced(db, job.work.order)
    ensures Remembered(db.(jobs := db.jobs[id := job]))
  {
    var after := db.(jobs := db.jobs[id := job]);
    forall o | o != 0 && o in after.orders && after.orders[o].status.Failed? ensures OpenJobFor(after.jobs, o) {
      var j :| j in db.jobs && db.jobs[j].work == OrderWork(o) && IsOpen(db.jobs[j]);
      assert after.jobs[j].work == OrderWork(o) && IsOpen(after.jobs[j]);
    }
  }

  lemma AttemptRemembers(cfg: Config, w: World, id: nat, plan: JobPlan)
    requires OrdersSound(w) && JobsBounded(w) && Remembered(w.working) && Remembered(w.committed)
    ensures var after := AttemptJob(cfg, w, id, plan); Remembered(after.working) && Remembered(after.committed)
  {
    if id in w.working.jobs {
      var work := w.working.jobs[id].work;
      var x := Execute(cfg, w, work, plan);
      ExecuteRemembers(cfg, w, work, plan);
      ExecuteTransaction(cfg, w, work, plan);
      if id in x.world.working.jobs {
        JobUpdateRemembers(x.world.working, id, Stepped(cfg, x.world.working.jobs[id], x.raised, plan.at));
      }
    }
  }

  lemma CancelRemembers(w: World, id: int, call: Call)
    requires Remembered(w.working) && Remembered(w.committed)
    ensures Remembered(CancelOrder(w, id, call).working) && Remembered(CancelOrder(w, id, call).committed)
  {
  }

  lemma RefundRemembers(w: World, id: int)
    requires Remembered(w.working) && Remembered(w.committed)
    ensures Remembered(RefundOrder(w, id).working) && Remembered(RefundOrder(w, id).committed)
  {
  }

  lemma StepRemembers(cfg: Config, w: World, op: Op)
    requires OrdersSound(w) && JobsBounded(w) && Remembered(w.working) && Remembered(w.committed)
    ensures Remembered(Step(cfg, w, op).working) && Remembered(Step(cfg, w, op).committed)
  {
    match op {
      case OrderOp(id, visit) => SyncOrderRemembers(cfg, w, id, visit);
      case PayloadOp(id, visit) => SyncOrderRemembers(cfg, w, id, visit);
      case CancelOp(id, call) => CancelRemembers(w, id, call);
      case RefundOp(id) => RefundRemembers(w, id);
      case AttemptOp(id, plan) => AttemptRemembers(cfg, w, id, plan);
      case RequeueOp(id, now) =>
        if id in w.working.jobs {
          JobUpdateRemembers(w.working, id, Requeued(w.working.jobs[id], now));
        }
      case SkuOp(sku, search, plan, now) =>
        SyncBySkuFrame(cfg, w, sku, search, plan, now);
        RememberedWithMoreJobs(w.working, SyncBySku(cfg, w, sku, search, plan, now).world.working);
      case PassOp(count, plans, now, _) =>
        SyncTemplatesFrame(cfg, w, cfg.templates[..Fetched(cfg, count)], plans, now);
        RememberedWithMoreJobs(w.working, SyncTemplates(cfg, w, cfg.templates[..Fetched(cfg, count)], plans, now).working);
      case _ =>
    }
  }

  /** No failure is forgotten: in every reachable state, committed or not, an order that is FAILED and has a
      non-zero id has an order job that is pending or in the dead letter queue. */
  lemma {:induction false} NoFailureForgotten(cfg: Config, w: World, ops: seq<Op>)
    requires OrdersSound(w) && JobsBounded(w) && Remembered(w.working) && Remembered(w.committed)
    ensures Remembered(Run(cfg, w, ops).working) && Remembered(Run(cfg, w, ops).committed)
  {
    if ops != [] {
      var n := |ops| - 1;
      NoFailureForgotten(cfg, w, ops[..n]);
      OrderRuns.RunOrdersSound(cfg, w, ops[..n]);
      StepRemembers(cfg, Run(cfg, w, ops[..n]), ops[n]);
    }
  }

  /** Order 0 is the exception, and it is real: its id is falsy for the retry, which does nothing and
      resolves the job although the row is still FAILED. */
  lemma OrderZeroIsForgotten(cfg: Config, odoo: Odoo, woo: Woo, visit: Visit, plan: JobPlan)
    requires visit.fetched.None? && plan.authenticated
    ensures var end := Run(cfg, NewPlatform(odoo, woo), [OrderOp(0, visit), AttemptOp(0, plan), CommitOp]);
      && 0 in end.committed.orders && end.committed.orders[0].status.Failed?
      && !OpenJobFor(end.committed.jobs, 0)
  {
    var w0 := NewPlatform(odoo, woo);
    var ops := [OrderOp(0, visit), AttemptOp(0, plan), CommitOp];
    var w1 := Step(cfg, w0, ops[0]);
    var w2 := Step(cfg, w1, ops[1]);
    assert ops[..3] == ops && ops[..2][..1] == ops[..1] && ops[..1][..0] == [];
    assert Run(cfg, w0, ops[..0]) == w0;
    assert Run(cfg, w0, ops[..1]) == w1;
    assert Run(cfg, w0, ops[..2]) == w2;
    assert w1.working.jobs.Keys == {0};
  }

  // ---------- life cycle ----------

  ghost predicate AllLively(jobs: map<nat, Job>) {
    forall id :: id in jobs ==> Lively(jobs[id])
  }

  ghost predicate AllOnSchedule(cfg: Config, jobs: map<nat, Job>) {
    forall id :: id in jobs ==> OnSchedule(jobs[id], cfg.delays)
  }

  lemma NewJobsFit(cfg: Config, before: map<nat, Job>, after: map<nat, Job>)
    requires 1 <= cfg.maxRetries && OnlyNewJobs(cfg, before, after)
    ensures AllLively(before) ==> AllLively(after)
    ensures AllOnSchedule(cfg, before) ==> AllOnSchedule(cfg, after)
  {
    forall id | id in after && id !in before ensures OnSchedule(after[id], cfg.delays) {
      var work, now :| after[id] == NewJob(work, cfg.maxRetries, cfg.delays, now);
      NewJobOnSchedule(work, cfg.maxRetries, cfg.delays, now);
    }
  }

  /** The job tables an operation can build on, and what it may do to them besides moving one job on. */
  ghost predicate AddsTo(cfg: Config, w: World, after: World) {
    && (|| OnlyNewJobs(cfg, w.working.jobs, after.working.jobs) || OnlyNewJobs(cfg, w.committed.jobs, after.working.jobs))
    && (after.committed.jobs == w.committed.jobs || after.committed.jobs == after.working.jobs)
  }

  lemma HandleOrderErrorAdds(cfg: Config, w: World, id: int, now: int)
    requires JobsBounded(w)
    ensures var after := HandleOrderError(cfg, w, id, now);
      OnlyNewJobs(cfg, w.working.jobs, after.working.jobs) && after.committed == after.working && JobsBounded(after)
  {
  }

  lemma SyncOrderAdds(cfg: Config, w: World, id: int, visit: Visit)
    requires JobsBounded(w)
    ensures AddsTo(cfg, w, SyncOrder(cfg, w, id, visit).world)
  {
    if !IsSynced(w.working, id) {
      HandleOrderErrorAdds(cfg, w, id, visit.now);
      if visit.fetched.Some? {
        var a := ProcessOrder(cfg, w, id, visit.fetched.value, visit.plan);
        HandleOrderErrorAdds(cfg, Rollback(w).(odoo := a.odoo), id, visit.now);
      }
    }
  }

  lemma ExecuteAdds(cfg: Config, w: World, work: Work, plan: JobPlan)
    requires JobsBounded(w)
    ensures AddsTo(cfg, w, Execute(cfg, w, work, plan).world)
  {
    match work {
      case OrderWork(id) => SyncOrderAdds(cfg, w, id, plan.visit);
      case ProductWork(sku) => SyncBySkuFrame(cfg, w, sku, plan.search, plan.product, plan.at);
      case InventoryWork(_) =>
      case UnknownWork =>
    }
  }

  lemma StepAdds(cfg: Config, w: World, op: Op)
    requires JobsBounded(w) && !op.AttemptOp? && !op.RequeueOp?
    ensures AddsTo(cfg, w, Step(cfg, w, op))
  {
    match op {
      case OrderOp(id, visit) => SyncOrderAdds(cfg, w, id, visit);
      case PayloadOp(id, visit) => SyncOrderAdds(cfg, w, id, visit);
      case SkuOp(sku, search, plan, now) => SyncBySkuFrame(cfg, w, sku, search, plan, now);
      case PassOp(count, plans, now, _) => SyncTemplatesFrame(cfg, w, cfg.templates[..Fetched(cfg, count)], plans, now);
      case _ =>
    }
  }

  lemma AddsFit(cfg: Config, w: World, after: World)
    requires 1 <= cfg.maxRetries && AddsTo(cfg, w, after)
    ensures AllLively(w.working.jobs) && AllLively(w.committed.jobs) ==>
      AllLively(after.working.jobs) && AllLively(after.committed.jobs)
    ensures AllOnSchedule(cfg, w.working.jobs) && AllOnSchedule(cfg, w.committed.jobs) ==>
      AllOnSchedule(cfg, after.working.jobs) && AllOnSchedule(cfg, after.committed.jobs)
  {
    if OnlyNewJobs(cfg, w.working.jobs, after.working.jobs) {
      NewJobsFit(cfg, w.working.jobs, after.working.jobs);
    } else {
      NewJobsFit(cfg, w.committed.jobs, after.working.jobs);
    }
  }

  lemma AttemptLively(cfg: Config, w: World, id: nat, plan: JobPlan)
    requires 1 <= cfg.maxRetries && JobsBounded(w) && AllLively(w.working.jobs) && AllLively(w.committed.jobs)
    ensures var after := AttemptJob(cfg, w, id, plan); AllLively(after.working.jobs) && AllLively(after.committed.jobs)
  {
    if id in w.working.jobs {
      ExecuteAdds(cfg, w, w.working.jobs[id].work, plan);
      AddsFit(cfg, w, Execute(cfg, w, w.working.jobs[id].work, plan).world);
    }
  }

  lemma StepLively(cfg: Config, w: World, op: Op)
    requires 1 <= cfg.maxRetries && JobsBounded(w) && AllLively(w.working.jobs) && AllLively(w.committed.jobs)
    ensures AllLively(Step(cfg, w, op).working.jobs) && AllLively(Step(cfg, w, op).committed.jobs)
  {
    match op {
      case AttemptOp(id, plan) => AttemptLively(cfg, w, id, plan);
      case RequeueOp(id, now) =>
      case _ =>
        StepAdds(cfg, w, op);
        AddsFit(cfg, w, Step(cfg, w, op));
    }
  }

  /** Life cycle over every run, manual retries included: a job is pending exactly while a next retry is due,
      only with retries left; a terminal job has a resolution time; RETRYING is unreachable. */
  lemma {:induction false} LifeCycle(cfg: Config, w: World, ops: seq<Op>)
    requires 1 <= cfg.maxRetries && JobsBounded(w) && AllLively(w.working.jobs) && AllLively(w.committed.jobs)
    ensures JobsBounded(Run(cfg, w, ops))
    ensures AllLively(Run(cfg, w, ops).working.jobs) && AllLively(Run(cfg, w, ops).committed.jobs)
  {
    if ops != [] {
      var n := |ops| - 1;
      LifeCycle(cfg, w, ops[..n]);
      OrderRuns.StepBounds(cfg, Run(cfg, w, ops[..n]), ops[n]);
      StepLively(cfg, Run(cfg, w, ops[..n]), ops[n]);
    }
  }

  // ---------- automatic runs ----------

  ghost predicate ReadyIn(jobs: map<nat, Job>, id: nat, at: int) {
    id in jobs ==> IsReady(jobs[id], at)
  }

  /** No manual retry, and a job is only attempted while it is ready, in the session and in the database. */
  ghost predicate IsAutomatic(w: World, op: Op) {
    && !op.RequeueOp?
    && (op.AttemptOp? ==> ReadyIn(w.working.jobs, op.job, op.plan.at) && ReadyIn(w.committed.jobs, op.job, op.plan.at))
  }

  ghost predicate IsAutomaticRun(cfg: Config, w: World, ops: seq<Op>) {
    forall k :: 0 <= k < |ops| ==> IsAutomatic(Run(cfg, w, ops[..k]), ops[k])
  }

  /** A job that ended for good in the database is the same in the session. */
  ghost predicate TerminalSettled(w: World) {
    forall id :: id in w.committed.jobs && IsTerminal(w.committed.jobs[id]) ==>
      id in w.working.jobs && w.working.jobs[id] == w.committed.jobs[id]
  }

  ghost predicate QueueSound(cfg: Config, w: World) {
    && JobsBounded(w)
    && AllOnSchedule(cfg, w.working.jobs)
    && AllOnSchedule(cfg, w.committed.jobs)
    && TerminalSettled(w)
  }

  ghost predicate TerminalKept(before: World, after: World) {
    forall id :: id in before.committed.jobs && IsTerminal(before.committed.jobs[id]) ==>
      id in after.committed.jobs && after.committed.jobs[id] == before.committed.jobs[id]
  }

  lemma AddsKeepTerminal(cfg: Config, w: World, after: World)
    requires AddsTo(cfg, w, after) && TerminalSettled(w)
    ensures TerminalKept(w, after)
    ensures forall id :: id in w.committed.jobs && IsTerminal(w.committed.jobs[id]) ==>
      id in after.working.jobs && after.working.jobs[id] == w.committed.jobs[id]
  {
  }

  lemma AddsSettle(cfg: Config, w: World, after: World)
    requires AddsTo(cfg, w, after) && TerminalSettled(w)
    ensures TerminalSettled(after)
  {
  }

  lemma AttemptOnSchedule(cfg: Config, w: World, id: nat, plan: JobPlan)
    requires 1 <= cfg.maxRetries && QueueSound(cfg, w) && IsAutomatic(w, AttemptOp(id, plan))
    ensures QueueSound(cfg, AttemptJob(cfg, w, id, plan)) && TerminalKept(w, AttemptJob(cfg, w, id, plan))
  {
    AttemptKeepsBounds(cfg, w, id, plan);
    if id in w.working.jobs {
      var x := Execute(cfg, w, w.working.jobs[id].work, plan);
      ExecuteAdds(cfg, w, w.working.jobs[id].work, plan);
      AddsFit(cfg, w, x.world);
      AddsKeepTerminal(cfg, w, x.world);
      AddsSettle(cfg, w, x.world);
      if id in x.world.working.jobs {
        ReadyAfterwards(cfg, w, id, plan);
        ReadyJobStaysOnSchedule(x.world.working.jobs[id], cfg.delays, plan.at);
      }
    }
  }

  /** The value of the job after its execution, possibly the one a rollback brought back, was ready as well. */
  lemma ReadyAfterwards(cfg: Config, w: World, id: nat, plan: JobPlan)
    requires QueueSound(cfg, w) && id in w.working.jobs && IsAutomatic(w, AttemptOp(id, plan))
    ensures var x := Execute(cfg, w, w.working.jobs[id].work, plan);
      id in x.world.working.jobs ==> IsReady(x.world.working.jobs[id], plan.at)
  {
    ExecuteTransaction(cfg, w, w.working.jobs[id].work, plan);
  }

  lemma StepOnSchedule(cfg: Config, w: World, op: Op)
    requires 1 <= cfg.maxRetries && QueueSound(cfg, w) && IsAutomatic(w, op)
    ensures QueueSound(cfg, Step(cfg, w, op)) && TerminalKept(w, Step(cfg, w, op))
  {
    match op {
      case AttemptOp(id, plan) => AttemptOnSchedule(cfg, w, id, plan);
      case _ =>
        OrderRuns.StepBounds(cfg, w, op);
        StepAdds(cfg, w, op);
        AddsFit(cfg, w, Step(cfg, w, op));
        AddsKeepTerminal(cfg, w, Step(cfg, w, op));
        AddsSettle(cfg, w, Step(cfg, w, op));
    }
  }

  lemma AutomaticPrefix(cfg: Config, w: World, ops: seq<Op>, n: nat)
    requires IsAutomaticRun(cfg, w, ops) && n < |ops|
    ensures IsAutomaticRun(cfg, w, ops[..n]) && IsAutomatic(Run(cfg, w, ops[..n]), ops[n])
  {
    forall k | 0 <= k < n ensures IsAutomatic(Run(cfg, w, ops[..n][..k]), ops[..n][k]) {
      assert ops[..n][..k] == ops[..k];
    }
  }

  lemma TerminalKeptTrans(a: World, b: World, c: World)
    requires TerminalKept(a, b) && TerminalKept(b, c)
    ensures TerminalKept(a, c)
  {
  }

  /** Schedule over automatic runs: no job has more failed retries than allowed, none is given up before its
      creation time plus all its delays, and a resolved or dead job never changes again. */
  lemma {:induction false} Schedule(cfg: Config, w: World, ops: seq<Op>)
    requires 1 <= cfg.maxRetries && QueueSound(cfg, w) && IsAutomaticRun(cfg, w, ops)
    ensures QueueSound(cfg, Run(cfg, w, ops))
    ensures TerminalKept(w, Run(cfg, w, ops))
  {
    if ops != [] {
      var n := |ops| - 1;
      var before := Run(cfg, w, ops[..n]);
      AutomaticPrefix(cfg, w, ops, n);
      Schedule(cfg, w, ops[..n]);
      StepOnSchedule(cfg, before, ops[n]);
      TerminalKeptTrans(w, before, Step(cfg, before, ops[n]));
    }
  }

  /** What the schedule means for one job that reached the dead letter queue. */
  lemma DeadLetterIsLate(cfg: Config, w: World, ops: seq<Op>, id: nat)
    requires 1 <= cfg.maxRetries && QueueSound(cfg, w) && IsAutomaticRun(cfg, w, ops)
    requires id in Run(cfg, w, ops).committed.jobs && Run(cfg, w, ops).committed.jobs[id].status.DeadLetter?
    ensures var job := Run(cfg, w, ops).committed.jobs[id];
      && job.retryCount == job.maxRetries
      && job.resolvedAt.Some?
      && job.createdAt + Total(Delays(cfg.delays), job.maxRetries) <= job.resolvedAt.value
  {
    Schedule(cfg, w, ops);
  }

  /** A pass over an answer of get_ready_for_retry, with a clock that does not run backwards, is automatic. */
  lemma PassIsAutomatic(cfg: Config, w: World, now: int, limit: nat, ready: seq<nat>, plans: seq<JobPlan>)
    requires |ready| == |plans| && w.working == w.committed && JobsBounded(w)
    requires IsReadyList(w.committed.jobs, now, limit, ready)
    requires forall k :: 0 <= k < |plans| ==> now <= plans[k].at
    ensures IsAutomaticRun(cfg, w, PassOps(ready, plans))
  {
    var ops := PassOps(ready, plans);
    forall k | 0 <= k < |ops| ensures IsAutomatic(Run(cfg, w, ops[..k]), ops[k]) {
      if k < |ready| {
        AttemptsRun(cfg, w, ready, plans, k);
        TableStates(cfg, w, ready, plans, k);
        assert ready[k] !in ready[..k];
      }
    }
  }

  /** Some answer always exists, so a pass can always be run. */
  lemma {:induction false} ReadyListExists(jobs: map<nat, Job>, now: int, limit: nat) returns (ready: seq<nat>)
    ensures IsReadyList(jobs, now, limit, ready)
    decreases limit
  {
    if limit == 0 {
      ready := [];
    } else {
      var shorter := ReadyListExists(jobs, now, limit - 1);
      var left := set id | id in jobs && IsReady(jobs[id], now) && id !in shorter;
      if left == {} {
        ready := shorter;
        forall id | id in jobs && IsReady(jobs[id], now) ensures id in ready {
          assert id !in left;
        }
      } else {
        var next := Earliest(jobs, now, left);
        ready := shorter + [next];
        forall id | id in jobs && IsReady(jobs[id], now) && id !in ready
          ensures |ready| == limit && jobs[next].nextRetryAt.value <= jobs[id].nextRetryAt.value {
          assert id in left;
        }
      }
    }
  }

  lemma {:induction false} Earliest(jobs: map<nat, Job>, now: int, ids: set<nat>) returns (next: nat)
    requires ids != {} && forall id :: id in ids ==> id in jobs && IsReady(jobs[id], now)
    ensures next in ids
    ensures forall id :: id in ids ==>
      jobs[next].nextRetryAt.Some? && jobs[id].nextRetryAt.Some? && jobs[next].nextRetryAt.value <= jobs[id].nextRetryAt.value
  {
    var first := Member(ids);
    var rest := ids - {first};
    next := first;
    if rest != {} {
      var other := Earliest(jobs, now, rest);
      if jobs[other].nextRetryAt.value < jobs[first].nextRetryAt.value {
        next := other;
      }
    }
    forall id | id in ids
      ensures jobs[next].nextRetryAt.Some? && jobs[id].nextRetryAt.Some? && jobs[next].nextRetryAt.value <= jobs[id].nextRetryAt.value {
      assert id == first || id in rest;
      assert IsReady(jobs[id], now) && IsReady(jobs[next], now);
    }
  }
}
