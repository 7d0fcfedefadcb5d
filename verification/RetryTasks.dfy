/** The Celery tasks of the retry queue and the manual retry endpoint, step by step. */
module RetryTasks {
  import opened Outcomes
  import opened Tables
  import opened FailedJobs
  import opened Sessions
  import opened WooShop
  import opened Worlds
  import opened Repositories
  import opened OrderService
  import ProductService
  import I = Inventory
  import R = RetryQueue
  import Runs

  datatype Report = Report(processed: nat, succeeded: nat, failedAgain: nat)

  const NOTHING_ATTEMPTED := Report(0, 0, 0)

  function Attempted(report: Report, raised: bool): Report {
    if raised then report.(processed := report.processed + 1, failedAgain := report.failedAgain + 1)
    else report.(processed := report.processed + 1, succeeded := report.succeeded + 1)
  }

  datatype Single = NotFound | Succeeded | FailedAgain

  datatype Requeueing = NoSuchJob | CannotRetry(status: JobStatus) | Queued

  class RetryWorker {
    const cfg: Config
    const db: Session
    const odoo: OdooApi.OdooStore
    const shop: WooStore
    const repo: FailedJobRepository
    const orders: OrderSyncService
    const products: ProductService.ProductSyncService
    const inventory: I.InventorySyncService
    const store: I.StockStore

    ghost predicate Wired() {
      && repo.db == db
      && orders.Wired() && orders.cfg == cfg && orders.db == db && orders.odoo == odoo && orders.shop == shop
      && products.Wired() && products.cfg == cfg && products.db == db && products.odoo == odoo && products.shop == shop
      && inventory.Wired() && inventory.all == cfg.variants && inventory.db == db && inventory.store == store
    }

    constructor (cfg: Config, db: Session, odoo: OdooApi.OdooStore, shop: WooStore, store: I.StockStore)
      ensures Wired() && this.cfg == cfg && this.db == db && this.odoo == odoo && this.shop == shop && this.store == store
    {
      this.cfg, this.db, this.odoo, this.shop, this.store := cfg, db, odoo, shop, store;
      repo := new FailedJobRepository(db);
      orders := new OrderSyncService(cfg, db, odoo, shop);
      products := new ProductService.ProductSyncService(cfg, db, odoo, shop);
      inventory := new I.InventorySyncService(cfg.variants, db, store);
    }

    ghost function View(): World
      reads db, odoo, shop
    {
      WorldOf(db, odoo, shop)
    }

    /** What an inventory job that ran did to the stock. */
    ghost predicate StockWorked(sku: string, calls: nat -> I.StockPlan, fate: R.InventoryFate, before: map<I.Slot, int>,
        after: map<I.Slot, int>, m: Mappings) {
      && (fate.InventoryUpdated? && I.UniqueKeys(m) ==> exists i :: I.HasSku(m, i, sku) && I.Stocked(cfg.variants, m, i, after))
      && (!fate.InventorySkipped? ==> exists i :: I.HasSku(m, i, sku) && I.OnlyDue(cfg.variants, m, i, before, after))
      && ((forall k :: I.IsSmooth(calls(k))) && I.CanBeStocked(cfg.variants, m, sku, before) ==> !fate.InventoryFailed?)
    }

    /** Dispatch by job type; raised stands for the exception that reaches the caller.  fate is what an inventory job
        did, whose service works on the stock of the shop, beside the world. */
    method ExecuteRetry(work: Work, plan: R.JobPlan, stock: nat -> I.StockPlan) returns (raised: bool, fate: R.InventoryFate)
      requires Wired()
      modifies db, odoo, shop, store
      ensures var x := R.Execute(cfg, old(View()), work, Actual(plan, fate));
        View() == x.world && raised == x.raised
      ensures !work.InventoryWork? || fate.InventorySkipped? ==> store.stock == old(store.stock)
      ensures work.InventoryWork? && plan.authenticated && work.sku != "" ==>
        StockWorked(work.sku, stock, fate, old(store.stock), store.stock, db.working.mappings)
    {
      raised, fate := false, R.InventorySkipped;
      if !plan.authenticated {
        return true, fate;
      }
      match work {
        case ProductWork(sku) =>
          if sku != "" {
            raised := products.SyncProductBySku(sku, plan.search, plan.product, plan.at);
          }
        case OrderWork(id) =>
          if id != 0 {
            var result := orders.SyncOrder(id, plan.visit);
            raised := result.OrderFailed?;
          }
        case InventoryWork(sku) =>
          if sku != "" {
            fate := inventory.SyncProductInventory(sku, stock);
            raised := fate.InventoryFailed?;
          }
        case UnknownWork =>
          raised := true;
      }
    }

    /** The body of the loop, which retry_single_job repeats. */
    method Attempt(id: nat, plan: R.JobPlan, stock: nat -> I.StockPlan) returns (raised: bool, fate: R.InventoryFate)
      requires Wired() && id in db.working.jobs
      modifies db, odoo, shop, store
      ensures raised == R.Execute(cfg, old(View()), old(db.working).jobs[id].work, Actual(plan, fate)).raised
      ensures View() == R.AttemptJob(cfg, old(View()), id, Actual(plan, fate))
    {
      raised, fate := ExecuteRetry(db.working.jobs[id].work, plan, stock);
      if id in db.working.jobs {
        if raised {
          repo.IncrementRetry(id, cfg.delays, plan.at);
        } else {
          repo.MarkResolved(id, plan.at);
        }
      }
    }

    method AttemptNext(report: Report, ready: seq<nat>, plans: seq<R.JobPlan>, stock: nat -> I.StockPlan,
        ghost done: seq<R.JobPlan>, k: nat, ghost progress: Progress)
      returns (after: Report, ghost plan: R.JobPlan)
      requires Wired() && |ready| == |plans| && k == |done| < |ready| && ready[k] in db.working.jobs
      requires KeptByAttempts(cfg, ready, plans, progress) && progress(View(), report, done) && SameButFates(plans, done)
      modifies db, odoo, shop, store
      ensures SameButFates(plans, done + [plan]) && progress(View(), after, done + [plan])
    {
      ghost var before := View();
      var raised, fate := Attempt(ready[k], plans[k], stock);
      plan := Actual(plans[k], fate);
      assert raised == R.Execute(cfg, before, before.working.jobs[ready[k]].work, plan).raised;
      assert View() == R.AttemptJob(cfg, before, ready[k], Actual(plans[k], fate));
      after := Attempted(report, raised);
    }

    method AttemptReady(ready: seq<nat>, plans: seq<R.JobPlan>, stocks: nat -> nat -> I.StockPlan, ghost progress: Progress)
      returns (report: Report, ghost done: seq<R.JobPlan>)
      requires Wired() && |ready| == |plans|
      requires forall w: World, s: Report, d: seq<R.JobPlan> :: |d| < |ready| && progress(w, s, d) ==>
        ready[|d|] in w.working.jobs
      requires KeptByAttempts(cfg, ready, plans, progress) && progress(View(), NOTHING_ATTEMPTED, [])
      modifies db, odoo, shop, store
      ensures |done| == |ready| && SameButFates(plans, done) && progress(View(), report, done)
    {
      report, done := NOTHING_ATTEMPTED, [];
      for k := 0 to |ready|
        invariant |done| == k && SameButFates(plans, done) && progress(View(), report, done)
      {
        ghost var plan;
        report, plan := AttemptNext(report, ready, plans, stocks(k), done, k, progress);
        done := done + [plan];
      }
    }

    /** A pass over the answer of get_ready_for_retry, in a session opened for it.  done are the plans with what the
        inventory jobs did. */
    method ProcessRetryQueue(ready: seq<nat>, plans: seq<R.JobPlan>, stocks: nat -> nat -> I.StockPlan)
      returns (report: Report, ghost done: seq<R.JobPlan>)
      requires Wired() && |ready| == |plans| && R.ReadyToRun(View(), ready)
      modifies db, odoo, shop, store
      ensures |done| == |ready| && SameButFates(plans, done)
      ensures View() == R.RetryPass(cfg, old(View()), ready, done)
      ensures report.processed == |ready| == report.succeeded + report.failedAgain
      ensures report.failedAgain == Failures(cfg, old(View()), ready, done)
    {
      AttemptsAreKept(cfg, View(), ready, plans);
      report, done := AttemptReady(ready, plans, stocks, ProgressFrom(cfg, View(), ready));
      assert ready[..|ready|] == ready;
      db.Commit();
    }

    /** retry_single_job looks at no status: a resolved job runs again. */
    method RetrySingleJob(id: nat, plan: R.JobPlan, stock: nat -> I.StockPlan) returns (r: Single, fate: R.InventoryFate)
      requires Wired()
      modifies db, odoo, shop, store
      ensures View() == R.RetrySingle(cfg, old(View()), id, Actual(plan, fate))
      ensures r.NotFound? <==> id !in old(db.working).jobs
      ensures !r.NotFound? ==>
        (r.FailedAgain? <==> R.Execute(cfg, old(View()), old(db.working).jobs[id].work, Actual(plan, fate)).raised)
    {
      if id !in db.working.jobs {
        return NotFound, R.InventorySkipped;
      }
      var raised;
      raised, fate := Attempt(id, plan, stock);
      db.Commit();
      r := if raised then FailedAgain else Succeeded;
    }

    /** The endpoint when the Celery broker cannot be reached. */
    method RetryFailedJob(id: nat, now: int) returns (r: Requeueing)
      modifies db`working, db`committed
      ensures View() == Runs.Requeue(old(View()), id, now)
      ensures r.NoSuchJob? <==> id !in old(db.working).jobs
      ensures r.Queued? <==> id in old(db.working).jobs && IsOpen(old(db.working).jobs[id])
    {
      if id !in db.working.jobs {
        return NoSuchJob;
      }
      var job := db.working.jobs[id];
      if !job.status.Pending? && !job.status.DeadLetter? {
        return CannotRetry(job.status);
      }
      job := job.(status := JobStatus.Pending, retryCount := 0, nextRetryAt := Some(now));
      db.working := db.working.(jobs := db.working.jobs[id := job]);
      db.Commit();
      return Queued;
    }
  }

  // ---------- the counters of a pass ----------

  /** A plan with what the inventory service did. */
  function Actual(plan: R.JobPlan, fate: R.InventoryFate): R.JobPlan {
    plan.(inventory := fate)
  }

  ghost predicate SameButFates(plans: seq<R.JobPlan>, done: seq<R.JobPlan>) {
    |done| <= |plans| && forall k :: 0 <= k < |done| ==> done[k] == Actual(plans[k], done[k].inventory)
  }

  /** How many of the jobs fail again. */
  function Failures(cfg: Config, w: World, ready: seq<nat>, plans: seq<R.JobPlan>): nat
    requires |ready| == |plans| && forall i :: 0 <= i < |ready| ==> ready[i] in w.committed.jobs
  {
    if ready == [] then 0
    else
      var n := |ready| - 1;
      Failures(cfg, w, ready[..n], plans[..n]) + if R.ExecutionOf(cfg, w, ready, plans, n).raised then 1 else 0
  }

  /** What holds of the world and the counters once some jobs are attempted, with these plans. */
  type Progress = (World, Report, seq<R.JobPlan>) -> bool

  ghost predicate KeptByAttempts(cfg: Config, ready: seq<nat>, plans: seq<R.JobPlan>, progress: Progress)
    requires |ready| == |plans|
  {
    forall w: World, s: Report, d: seq<R.JobPlan>, fate: R.InventoryFate
      {:trigger progress(w, s, d), R.AttemptJob(cfg, w, ready[|d|], Actual(plans[|d|], fate))} ::
      |d| < |ready| && ready[|d|] in w.working.jobs && progress(w, s, d) ==>
        progress(R.AttemptJob(cfg, w, ready[|d|], Actual(plans[|d|], fate)),
                 Attempted(s, R.Execute(cfg, w, w.working.jobs[ready[|d|]].work, Actual(plans[|d|], fate)).raised),
                 d + [Actual(plans[|d|], fate)])
  }

  ghost predicate AttemptedSoFar(w: World, s: Report, cfg: Config, start: World, ready: seq<nat>, done: seq<R.JobPlan>)
    requires forall i :: 0 <= i < |ready| ==> ready[i] in start.committed.jobs
  {
    var n := |done|;
    && n <= |ready|
    && w == R.AttemptAll(cfg, start, ready[..n], done)
    && s.processed == n == s.succeeded + s.failedAgain
    && s.failedAgain == Failures(cfg, start, ready[..n], done)
  }

  ghost function ProgressFrom(cfg: Config, start: World, ready: seq<nat>): Progress
    requires forall i :: 0 <= i < |ready| ==> ready[i] in start.committed.jobs
  {
    (w: World, s: Report, done: seq<R.JobPlan>) => AttemptedSoFar(w, s, cfg, start, ready, done)
  }

  /** When its turn comes, a ready job is in the session as it was in the database. */
  lemma StillThere(cfg: Config, start: World, ready: seq<nat>, done: seq<R.JobPlan>)
    requires R.ReadyToRun(start, ready) && |done| < |ready|
    ensures var jobs := R.AttemptAll(cfg, start, ready[..|done|], done).working.jobs;
      ready[|done|] in jobs && jobs[ready[|done|]] == start.committed.jobs[ready[|done|]]
  {
    var n := |done|;
    assert ready[..n][..n] == ready[..n] && done[..n] == done;
    R.TableStates(cfg, start, ready[..n], done, n);
    assert ready[n] !in ready[..n];
  }

  lemma AttemptStep(cfg: Config, start: World, ready: seq<nat>, done: seq<R.JobPlan>, plan: R.JobPlan)
    requires R.ReadyToRun(start, ready) && |done| < |ready|
    ensures var n := |done|;
      var w := R.AttemptAll(cfg, start, ready[..n], done);
      && R.AttemptAll(cfg, start, ready[..n + 1], done + [plan]) == R.AttemptJob(cfg, w, ready[n], plan)
      && Failures(cfg, start, ready[..n + 1], done + [plan])
         == Failures(cfg, start, ready[..n], done)
            + if R.Execute(cfg, w, start.committed.jobs[ready[n]].work, plan).raised then 1 else 0
  {
    var n := |done|;
    assert ready[..n + 1][..n] == ready[..n] && ready[..n + 1][n] == ready[n];
    assert (done + [plan])[..n] == done && (done + [plan])[n] == plan;
  }

  lemma AttemptsAreKept(cfg: Config, start: World, ready: seq<nat>, plans: seq<R.JobPlan>)
    requires |ready| == |plans| && R.ReadyToRun(start, ready)
    ensures var progress := ProgressFrom(cfg, start, ready);
      && KeptByAttempts(cfg, ready, plans, progress)
      && progress(start, NOTHING_ATTEMPTED, [])
      && forall w: World, s: Report, d: seq<R.JobPlan> :: |d| < |ready| && progress(w, s, d) ==> ready[|d|] in w.working.jobs
  {
    var progress := ProgressFrom(cfg, start, ready);
    forall w: World, s: Report, d: seq<R.JobPlan> | |d| < |ready| && progress(w, s, d)
      ensures ready[|d|] in w.working.jobs {
      StillThere(cfg, start, ready, d);
    }
    forall w: World, s: Report, d: seq<R.JobPlan>, fate: R.InventoryFate
      {:trigger progress(w, s, d), R.AttemptJob(cfg, w, ready[|d|], Actual(plans[|d|], fate))}
      | |d| < |ready| && ready[|d|] in w.working.jobs && progress(w, s, d)
      ensures progress(R.AttemptJob(cfg, w, ready[|d|], Actual(plans[|d|], fate)),
                       Attempted(s, R.Execute(cfg, w, w.working.jobs[ready[|d|]].work, Actual(plans[|d|], fate)).raised),
                       d + [Actual(plans[|d|], fate)]) {
      StillThere(cfg, start, ready, d);
      AttemptStep(cfg, start, ready, d, Actual(plans[|d|], fate));
    }
  }

  lemma PrefixExecutes(cfg: Config, w: World, ready: seq<nat>, plans: seq<R.JobPlan>, n: nat, k: nat)
    requires |ready| == |plans| && k < n <= |ready| && ready[k] in w.committed.jobs
    ensures R.ExecutionOf(cfg, w, ready[..n], plans[..n], k) == R.ExecutionOf(cfg, w, ready, plans, k)
  {
    assert ready[..n][..k] == ready[..k] && plans[..n][..k] == plans[..k];
  }

  lemma {:induction false} NoFailures(cfg: Config, w: World, ready: seq<nat>, plans: seq<R.JobPlan>, k: nat)
    requires |ready| == |plans| && forall i :: 0 <= i < |ready| ==> ready[i] in w.committed.jobs
    requires Failures(cfg, w, ready, plans) == 0 && k < |ready|
    ensures !R.ExecutionOf(cfg, w, ready, plans, k).raised
  {
    var n := |ready| - 1;
    if k < n {
      NoFailures(cfg, w, ready[..n], plans[..n], k);
      PrefixExecutes(cfg, w, ready, plans, n, k);
    }
  }

  lemma CleanPassNeverRollsBack(cfg: Config, w: World, ready: seq<nat>, plans: seq<R.JobPlan>, k: nat)
    requires |ready| == |plans| && R.ReadyToRun(w, ready) && k < |ready|
    requires Failures(cfg, w, ready, plans) == 0
    ensures !R.Endings(cfg, w, ready, plans)[k].RollsBack?
  {
    NoFailures(cfg, w, ready, plans, k);
    R.TableStates(cfg, w, ready, plans, k);
    R.ExecuteTransaction(cfg, R.Before(cfg, w, ready, plans, k), w.committed.jobs[ready[k]].work, plans[k]);
  }

  /** A pass that reports no failure has durably resolved every job it attempted. */
  lemma CleanPassResolvesAll(cfg: Config, w: World, ready: seq<nat>, plans: seq<R.JobPlan>)
    requires |ready| == |plans| && R.ReadyToRun(w, ready)
    requires Failures(cfg, w, ready, plans) == 0
    ensures var jobs := R.RetryPass(cfg, w, ready, plans).committed.jobs;
      forall k :: 0 <= k < |ready| ==>
        ready[k] in jobs && jobs[ready[k]] == Closed(w.committed.jobs[ready[k]], plans[k].at)
  {
    var n := |ready|;
    var endings := R.Endings(cfg, w, ready, plans);
    R.DurableEffect(cfg, w, ready, plans);
    forall k | 0 <= k < n ensures !endings[k].RollsBack? {
      CleanPassNeverRollsBack(cfg, w, ready, plans, k);
    }
    forall k | 0 <= k < n
      ensures R.RetryPass(cfg, w, ready, plans).committed.jobs[ready[k]] == Closed(w.committed.jobs[ready[k]], plans[k].at) {
      NoFailures(cfg, w, ready, plans, k);
      R.UndoneMeans(endings, k, n);
    }
  }
}
