/** The retry queue: one session shared by all jobs of a pass and by the services they call. */
module RetryQueue {
  import opened Outcomes
  import opened Tables
  import opened FailedJobs
  import opened Worlds
  import opened OrderSync
  import VariantSync
  import ProductSync
  import CataloguePass

  // ---------- product synchronisation on the whole world ----------

  function ShelfOf(w: World): VariantSync.Shelf {
    VariantSync.Shelf(w.working.mappings, w.woo, w.nextRow, w.nextVariantRow)
  }

  function PutShelf(w: World, s: VariantSync.Shelf): World {
    w.(working := w.working.(mappings := s.mappings), woo := s.woo, nextRow := s.nextRow, nextVariantRow := s.nextVariantRow)
  }

  datatype TemplateReply = TemplateReply(world: World, action: ProductSync.Action)

  /** One template; a failure of an API class enqueues a retry for its SKU. */
  function SyncTemplate(cfg: Config, w: World, p: OdooProduct, plan: ProductSync.ProductPlan, now: int): TemplateReply {
    var reply := ProductSync.SyncSingleProduct(ShelfOf(w), cfg.variants, p, plan);
    var after := PutShelf(w, reply.shelf);
    TemplateReply(
      if reply.action == ProductSync.FailedWith(Api) then Enqueue(cfg, after, ProductWork(ProductSync.ResolvedSku(p, plan)), now)
      else after,
      reply.action)
  }

  function SyncTemplates(cfg: Config, w: World, qs: seq<OdooProduct>, plans: seq<ProductSync.ProductPlan>, now: int): World {
    if qs == [] then w
    else
      var n := |qs| - 1;
      SyncTemplate(cfg, SyncTemplates(cfg, w, qs[..n], plans, now), qs[n], CataloguePass.PlanOf(plans, n), now).world
  }

  function TemplateWithCode(ps: seq<OdooProduct>, sku: string): Option<OdooProduct> {
    if ps == [] then None
    else if ps[0].code == sku then Some(ps[0])
    else TemplateWithCode(ps[1..], sku)
  }

  /** sync_product_by_sku: a failing search and an unknown SKU end without touching the transaction. */
  function SyncBySku(cfg: Config, w: World, sku: string, search: Option<Fault>, plan: ProductSync.ProductPlan,
      now: int): Executed {
    if search.Some? then Executed(w, true, Leaves)
    else match TemplateWithCode(cfg.templates, sku)
      case None => Executed(w, true, Leaves)
      case Some(p) =>
        var reply := SyncTemplate(cfg, w, p, plan, now);
        Executed(Commit(reply.world), reply.action.FailedWith?, Commits)
  }

  // ---------- one job ----------

  datatype InventoryFate = InventoryUpdated | InventorySkipped | InventoryFailed

  /** Outcomes of the calls made for one job, whatever its type, and the clock. */
  datatype JobPlan = JobPlan(
    authenticated: bool,
    visit: Visit,
    search: Option<Fault>,
    product: ProductSync.ProductPlan,
    inventory: InventoryFate,
    at: int)

  /** _execute_retry.  An identifier that is 0 or empty is falsy: nothing is done, and that counts as success. */
  function Execute(cfg: Config, w: World, work: Work, plan: JobPlan): Executed {
    if !plan.authenticated then Executed(w, true, Leaves)
    else match work
      case OrderWork(id) => if id == 0 then Executed(w, false, Leaves) else SyncOrder(cfg, w, id, plan.visit)
      case ProductWork(sku) =>
        if sku == "" then Executed(w, false, Leaves) else SyncBySku(cfg, w, sku, plan.search, plan.product, plan.at)
      case InventoryWork(sku) =>
        (if sku == "" then Executed(w, false, Leaves)
         else match plan.inventory
           case InventoryUpdated => Executed(Commit(w), false, Commits)
           case InventorySkipped => Executed(w, false, Leaves)
           case InventoryFailed => Executed(w, true, Leaves))
      case UnknownWork => Executed(w, true, Leaves)
  }

  function Stepped(cfg: Config, job: Job, raised: bool, at: int): Job {
    if raised then Advanced(job, cfg.delays, at) else Closed(job, at)
  }

  /** Execute the job, then mark it resolved or advanced; this update is flushed but not committed. */
  function AttemptJob(cfg: Config, w: World, id: nat, plan: JobPlan): World {
    if id !in w.working.jobs then w
    else
      var x := Execute(cfg, w, w.working.jobs[id].work, plan);
      if id !in x.world.working.jobs then x.world
      else
        var job := Stepped(cfg, x.world.working.jobs[id], x.raised, plan.at);
        x.world.(working := x.world.working.(jobs := x.world.working.jobs[id := job]))
  }

  // ---------- a pass ----------

  function AttemptAll(cfg: Config, w: World, ready: seq<nat>, plans: seq<JobPlan>): World
    requires |ready| == |plans|
  {
    if ready == [] then w
    else
      var n := |ready| - 1;
      AttemptJob(cfg, AttemptAll(cfg, w, ready[..n], plans[..n]), ready[n], plans[n])
  }

  function RetryPass(cfg: Config, w: World, ready: seq<nat>, plans: seq<JobPlan>): World
    requires |ready| == |plans|
  {
    Commit(AttemptAll(cfg, w, ready, plans))
  }

  /** retry_single_job: any existing job, whatever its status. */
  function RetrySingle(cfg: Config, w: World, id: nat, plan: JobPlan): World {
    if id !in w.working.jobs then w else Commit(AttemptJob(cfg, w, id, plan))
  }

  /** An answer of get_ready_for_retry: at most limit ready jobs, earliest first, none passed over. */
  ghost predicate IsReadyList(jobs: map<nat, Job>, now: int, limit: nat, ready: seq<nat>) {
    && |ready| <= limit
    && (forall i, j :: 0 <= i < j < |ready| ==> ready[i] != ready[j])
    && (forall i :: 0 <= i < |ready| ==> ready[i] in jobs && IsReady(jobs[ready[i]], now))
    && (forall i, j :: 0 <= i < j < |ready| ==> jobs[ready[i]].nextRetryAt.value <= jobs[ready[j]].nextRetryAt.value)
    && (forall id :: id in jobs && IsReady(jobs[id], now) && id !in ready ==>
          && |ready| == limit
          && (ready != [] ==> jobs[ready[|ready| - 1]].nextRetryAt.value <= jobs[id].nextRetryAt.value))
  }

  // ---------- what a job does to the job table ----------

  ghost predicate JobsKept(before: map<nat, Job>, after: map<nat, Job>) {
    forall id :: id in before ==> id in after && after[id] == before[id]
  }

  ghost predicate JobsBounded(w: World) {
    && (forall id :: id in w.working.jobs ==> id < w.nextJob)
    && (forall id :: id in w.committed.jobs ==> id < w.nextJob)
  }

  /** What the job table looks like after an execution, by the way it ended its transaction. */
  ghost predicate TransactionOf(w: World, x: Executed) {
    match x.ending
    case Leaves => x.world == w
    case Commits => x.world.committed == x.world.working && JobsKept(w.working.jobs, x.world.working.jobs)
    case RollsBack => x.world.committed == x.world.working && JobsKept(w.committed.jobs, x.world.working.jobs)
  }

  lemma ExecuteTransaction(cfg: Config, w: World, work: Work, plan: JobPlan)
    requires JobsBounded(w)
    ensures TransactionOf(w, Execute(cfg, w, work, plan))
    ensures JobsBounded(Execute(cfg, w, work, plan).world)
    ensures Execute(cfg, w, work, plan).ending.RollsBack? ==> Execute(cfg, w, work, plan).raised
  {
  }

  lemma AttemptKeepsBounds(cfg: Config, w: World, id: nat, plan: JobPlan)
    requires JobsBounded(w)
    ensures JobsBounded(AttemptJob(cfg, w, id, plan))
  {
    if id in w.working.jobs {
      ExecuteTransaction(cfg, w, w.working.jobs[id].work, plan);
    }
  }

  // ---------- the durable effect of a pass ----------

  /** The state in which job number k of the pass is executed, and what its execution does. */
  function Before(cfg: Config, w: World, ready: seq<nat>, plans: seq<JobPlan>, k: nat): World
    requires |ready| == |plans| && k <= |ready|
  {
    AttemptAll(cfg, w, ready[..k], plans[..k])
  }

  function ExecutionOf(cfg: Config, w: World, ready: seq<nat>, plans: seq<JobPlan>, k: nat): Executed
    requires |ready| == |plans| && k < |ready| && ready[k] in w.committed.jobs
  {
    Execute(cfg, Before(cfg, w, ready, plans, k), w.committed.jobs[ready[k]].work, plans[k])
  }

  /** The retry step due to job k: resolved if its execution succeeded, else advanced by one. */
  function DueStep(cfg: Config, w: World, ready: seq<nat>, plans: seq<JobPlan>, k: nat): Job
    requires |ready| == |plans| && k < |ready| && ready[k] in w.committed.jobs
  {
    Stepped(cfg, w.committed.jobs[ready[k]], ExecutionOf(cfg, w, ready, plans, k).raised, plans[k].at)
  }

  function EndingOf(cfg: Config, w: World, ready: seq<nat>, plans: seq<JobPlan>, k: nat): Ending
    requires |ready| == |plans| && k < |ready| && ready[k] in w.committed.jobs
  {
    ExecutionOf(cfg, w, ready, plans, k).ending
  }

  datatype Fate = Unsaved | Saved | Undone

  /** What became of the update of job k by the time the first n jobs were attempted: the first later
      execution that ends the transaction decides. */
  function FateOf(endings: seq<Ending>, k: nat, n: nat): Fate
    requires k < n <= |endings|
  {
    if n == k + 1 then Unsaved
    else
      var earlier := FateOf(endings, k, n - 1);
      if !earlier.Unsaved? then earlier
      else match endings[n - 1]
        case Leaves => Unsaved
        case Commits => Saved
        case RollsBack => Undone
  }

  /** The job table in the session and in the database after n attempts: an attempted job holds its due step
      unless that was undone, in the database only once it was saved; every other job is as it was. */
  ghost predicate TableState(start: map<nat, Job>, ready: seq<nat>, steps: seq<Job>, endings: seq<Ending>, n: nat,
                             working: map<nat, Job>, committed: map<nat, Job>)
    requires |ready| == |steps| == |endings| && n <= |ready|
    requires forall i :: 0 <= i < |ready| ==> ready[i] in start
  {
    && (forall id :: id in start ==> id in working && id in committed)
    && (forall k :: 0 <= k < n ==>
          working[ready[k]] == if FateOf(endings, k, n).Undone? then start[ready[k]] else steps[k])
    && (forall k :: 0 <= k < n ==>
          committed[ready[k]] == if FateOf(endings, k, n).Saved? then steps[k] else start[ready[k]])
    && (forall id :: id in start && id !in ready[..n] ==> working[id] == start[id] && committed[id] == start[id])
  }

  ghost predicate OthersKept(before: map<nat, Job>, after: map<nat, Job>, id: nat) {
    forall i :: i in before && i != id ==> i in after && after[i] == before[i]
  }

  /** What one attempt does to the two job tables. */
  ghost predicate TableStep(working: map<nat, Job>, committed: map<nat, Job>, working': map<nat, Job>,
      committed': map<nat, Job>,
                            id: nat, step: Job, ending: Ending) {
    && id in working'
    && working'[id] == step
    && match ending
       case Leaves => committed' == committed && OthersKept(working, working', id)
       case Commits => JobsKept(working, committed') && OthersKept(working, working', id)
       case RollsBack => JobsKept(committed, committed') && OthersKept(committed, working', id)
  }

  lemma TableStateStep(start: map<nat, Job>, ready: seq<nat>, steps: seq<Job>, endings: seq<Ending>, n: nat,
                       working: map<nat, Job>, committed: map<nat, Job>, working': map<nat, Job>, committed': map<nat, Job>)
    requires |ready| == |steps| == |endings| && n < |ready|
    requires forall i :: 0 <= i < |ready| ==> ready[i] in start
    requires forall i, j :: 0 <= i < j < |ready| ==> ready[i] != ready[j]
    requires TableState(start, ready, steps, endings, n, working, committed)
    requires TableStep(working, committed, working', committed', ready[n], steps[n], endings[n])
    ensures TableState(start, ready, steps, endings, n + 1, working', committed')
  {
    assert ready[n] !in ready[..n];
    assert ready[..n + 1] == ready[..n] + [ready[n]];
    forall k | 0 <= k < n
      ensures working'[ready[k]] == if FateOf(endings, k, n + 1).Undone? then start[ready[k]] else steps[k]
      ensures committed'[ready[k]] == if FateOf(endings, k, n + 1).Saved? then steps[k] else start[ready[k]] {
      assert ready[k] != ready[n] && ready[k] in start;
    }
  }

  lemma AttemptIsTableStep(cfg: Config, s: World, id: nat, plan: JobPlan, job: Job)
    requires JobsBounded(s)
    requires id in s.working.jobs && s.working.jobs[id] == job
    requires id in s.committed.jobs && s.committed.jobs[id] == job
    ensures var x := Execute(cfg, s, job.work, plan);
      var after := AttemptJob(cfg, s, id, plan);
      && JobsBounded(after)
      && TableStep(s.working.jobs, s.committed.jobs, after.working.jobs, after.committed.jobs, id,
                   Stepped(cfg, job, x.raised, plan.at), x.ending)
  {
    ExecuteTransaction(cfg, s, job.work, plan);
  }

  function DueSteps(cfg: Config, w: World, ready: seq<nat>, plans: seq<JobPlan>): seq<Job>
    requires |ready| == |plans| && forall i :: 0 <= i < |ready| ==> ready[i] in w.committed.jobs
  {
    seq(|ready|, k requires 0 <= k < |ready| => DueStep(cfg, w, ready, plans, k))
  }

  function Endings(cfg: Config, w: World, ready: seq<nat>, plans: seq<JobPlan>): seq<Ending>
    requires |ready| == |plans| && forall i :: 0 <= i < |ready| ==> ready[i] in w.committed.jobs
  {
    seq(|ready|, k requires 0 <= k < |ready| => EndingOf(cfg, w, ready, plans, k))
  }

  lemma AttemptAllStep(cfg: Config, w: World, ready: seq<nat>, plans: seq<JobPlan>, n: nat)
    requires |ready| == |plans| && 0 < n <= |ready|
    ensures Before(cfg, w, ready, plans, n) == AttemptJob(cfg, Before(cfg, w, ready, plans, n - 1), ready[n - 1], plans[n - 1])
  {
    assert ready[..n][..n - 1] == ready[..n - 1] && plans[..n][..n - 1] == plans[..n - 1];
  }

  /** The jobs of a pass: known, each attempted once, in a session that starts level with the database. */
  ghost predicate ReadyToRun(w: World, ready: seq<nat>) {
    && w.working.jobs == w.committed.jobs && JobsBounded(w)
    && (forall i :: 0 <= i < |ready| ==> ready[i] in w.committed.jobs)
    && (forall i, j :: 0 <= i < j < |ready| ==> ready[i] != ready[j])
  }

  lemma {:induction false} TableStates(cfg: Config, w: World, ready: seq<nat>, plans: seq<JobPlan>, n: nat)
    requires |ready| == |plans| && n <= |ready| && ReadyToRun(w, ready)
    ensures var s := Before(cfg, w, ready, plans, n);
      && JobsBounded(s)
      && TableState(w.committed.jobs, ready, DueSteps(cfg, w, ready, plans), Endings(cfg, w, ready, plans), n,
                    s.working.jobs, s.committed.jobs)
  {
    if n > 0 {
      TableStates(cfg, w, ready, plans, n - 1);
      var s := Before(cfg, w, ready, plans, n - 1);
      var id := ready[n - 1];
      var steps, endings := DueSteps(cfg, w, ready, plans), Endings(cfg, w, ready, plans);
      assert id !in ready[..n - 1];
      AttemptIsTableStep(cfg, s, id, plans[n - 1], w.committed.jobs[id]);
      AttemptAllStep(cfg, w, ready, plans, n);
      var after := Before(cfg, w, ready, plans, n);
      assert steps[n - 1] == DueStep(cfg, w, ready, plans, n - 1) && endings[n - 1] == EndingOf(cfg, w, ready, plans, n - 1);
      TableStateStep(w.committed.jobs, ready, steps, endings, n - 1,
                     s.working.jobs, s.committed.jobs, after.working.jobs, after.committed.jobs);
    }
  }

  /** A due step never leaves a job as it was, so "as before" and "stepped" do not overlap. */
  lemma DueStepMoves(cfg: Config, job: Job, raised: bool, at: int)
    requires Lively(job) && job.status.Pending?
    ensures Stepped(cfg, job, raised, at) != job
    ensures raised ==> Stepped(cfg, job, raised, at).retryCount == job.retryCount + 1
    ensures !raised ==> Stepped(cfg, job, raised, at).status.Resolved?
  {
  }

  /** Durable effect of a pass: each attempted job ends committed with its due step, or exactly as before
      if and only if the first later execution that ended the transaction rolled it back.  For a pending job these
      two exclude each other.  The last attempted job is never lost, and no other job changes. */
  lemma DurableEffect(cfg: Config, w: World, ready: seq<nat>, plans: seq<JobPlan>)
    requires |ready| == |plans| && ReadyToRun(w, ready)
    ensures var jobs := RetryPass(cfg, w, ready, plans).committed.jobs;
      var n := |ready|;
      && (forall id :: id in w.committed.jobs ==> id in jobs)
      && (forall k :: 0 <= k < n ==>
            jobs[ready[k]] == if FateOf(Endings(cfg, w, ready, plans), k, n).Undone? then w.committed.jobs[ready[k]]
                              else DueStep(cfg, w, ready, plans, k))
      && (forall k :: 0 <= k < n && Lively(w.committed.jobs[ready[k]]) && w.committed.jobs[ready[k]].status.Pending? ==>
            (jobs[ready[k]] == w.committed.jobs[ready[k]] <==> FateOf(Endings(cfg, w, ready, plans), k, n).Undone?))
      && (n > 0 ==> jobs[ready[n - 1]] == DueStep(cfg, w, ready, plans, n - 1))
      && (forall id :: id in w.committed.jobs && id !in ready ==> jobs[id] == w.committed.jobs[id])
  {
    var n := |ready|;
    TableStates(cfg, w, ready, plans, n);
    assert ready[..n] == ready && plans[..n] == plans;
    assert forall k :: 0 <= k < n ==> DueSteps(cfg, w, ready, plans)[k] == DueStep(cfg, w, ready, plans, k);
    forall k | 0 <= k < n && Lively(w.committed.jobs[ready[k]]) && w.committed.jobs[ready[k]].status.Pending?
      ensures DueStep(cfg, w, ready, plans, k) != w.committed.jobs[ready[k]] {
      DueStepMoves(cfg, w.committed.jobs[ready[k]], ExecutionOf(cfg, w, ready, plans, k).raised, plans[k].at);
    }
  }

  /** Undone means exactly: among the later executions some end the transaction, and the first of them rolls it back. */
  lemma {:induction false} UndoneMeans(endings: seq<Ending>, k: nat, n: nat)
    requires k < n <= |endings|
    ensures FateOf(endings, k, n).Undone? <==>
      exists j :: k < j < n && endings[j].RollsBack? && forall i :: k < i < j ==> endings[i].Leaves?
    ensures FateOf(endings, k, n).Unsaved? <==> forall i :: k < i < n ==> endings[i].Leaves?
  {
    if n > k + 1 {
      UndoneMeans(endings, k, n - 1);
      if FateOf(endings, k, n).Undone? && FateOf(endings, k, n - 1).Unsaved? {
        assert k < n - 1 < n && endings[n - 1].RollsBack?;
      }
    }
  }
}
