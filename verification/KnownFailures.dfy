/** The failures the platform is exposed to, each with a run that shows it from a new platform. */
module KnownFailures {
  import opened Outcomes
  import opened Tables
  import opened OdooApi
  import opened WooApi
  import opened FailedJobs
  import opened Worlds
  import opened CustomerSync
  import opened OrderSync
  import opened RetryQueue
  import opened Runs
  import opened ReachableStates
  import ProductSkus
  import RetryTasks

  lemma TwoSteps(cfg: Config, w: World, a: Op, b: Op)
    ensures Run(cfg, w, [a, b]) == Step(cfg, Step(cfg, w, a), b)
  {
    var ops := [a, b];
    assert ops[..2] == ops && ops[..1] == [a] && [a][..0] == [];
    assert Run(cfg, w, []) == w;
    assert Run(cfg, w, [a]) == Step(cfg, w, a);
  }

  lemma ThreeSteps(cfg: Config, w: World, a: Op, b: Op, c: Op)
    ensures Run(cfg, w, [a, b, c]) == Step(cfg, Step(cfg, Step(cfg, w, a), b), c)
  {
    assert [a, b, c][..2] == [a, b];
    TwoSteps(cfg, w, a, b);
  }

  type Shelf = VariantSync.Shelf

  // ---------- a sale order made twice ----------

  lemma SuccessMakesOne(cfg: Config, w: World, id: int, visit: Visit)
    requires OrdersSound(w) && !IsSynced(w.committed, id) && !SyncOrder(cfg, w, id, visit).raised
    ensures var after := SyncOrder(cfg, w, id, visit).world;
      && OrdersSound(after) && IsSynced(after.committed, id)
      && |Created(after.odoo, id)| == |Created(w.odoo, id)| + 1
  {
    SyncOrderSound(cfg, w, id, visit);
    SyncOrderAccount(cfg, w, id, visit, id);
  }

  lemma RefundLeaves(w: World, id: int)
    requires OrdersSound(w) && IsSynced(w.committed, id)
    ensures var after := RefundOrder(w, id);
      OrdersSound(after) && !IsSynced(after.committed, id) && after.odoo == w.odoo
  {
  }

  lemma OrderRefundOrder(cfg: Config, w: World, id: int, first: Visit, second: Visit)
    ensures Run(cfg, w, [OrderOp(id, first), RefundOp(id), OrderOp(id, second)])
      == SyncOrder(cfg, RefundOrder(SyncOrder(cfg, w, id, first).world, id), id, second).world
  {
    ThreeSteps(cfg, w, OrderOp(id, first), RefundOp(id), OrderOp(id, second));
  }

  /** An order that is synced, refunded and synced again has two sale orders. */
  lemma RefundedOrderIsMadeAgain(cfg: Config, w: World, id: int, first: Visit, second: Visit)
    requires OrdersSound(w) && Created(w.odoo, id) == {} && !IsSynced(w.committed, id)
    requires !SyncOrder(cfg, w, id, first).raised
    requires !SyncOrder(cfg, RefundOrder(SyncOrder(cfg, w, id, first).world, id), id, second).raised
    ensures |Created(Run(cfg, w, [OrderOp(id, first), RefundOp(id), OrderOp(id, second)]).odoo, id)| == 2
  {
    OrderRefundOrder(cfg, w, id, first, second);
    var w1 := SyncOrder(cfg, w, id, first).world;
    SuccessMakesOne(cfg, w, id, first);
    RefundLeaves(w1, id);
    SuccessMakesOne(cfg, RefundOrder(w1, id), id, second);
  }

  /** So has an order whose first attempt died after it had done its work in Odoo, before the commit. */
  lemma OrderIsMadeAgainAfterDeath(cfg: Config, w: World, id: int, first: Visit, second: Visit)
    requires OrdersSound(w) && Created(w.odoo, id) == {} && !IsSynced(w.committed, id)
    requires !SyncOrder(cfg, w, id, first).raised
    requires !SyncOrder(cfg, DieInOrder(cfg, w, id, first), id, second).raised
    ensures |Created(Run(cfg, w, [DeathOp(id, first), OrderOp(id, second)]).odoo, id)| == 2
  {
    TwoSteps(cfg, w, DeathOp(id, first), OrderOp(id, second));
    ProcessOrderSound(cfg, w, id, first.fetched.value, first.plan);
    DeathSound(cfg, w, id, first);
    DeathAccount(cfg, w, id, first, id);
    SuccessMakesOne(cfg, DieInOrder(cfg, w, id, first), id, second);
  }

  // ---------- an order that goes through ----------

  const SMOOTH_CHILD := ChildPlan(None, 0, None, Ok)
  const SMOOTH_ORDER := OrderPlan(CustomerPlan(None, 0, Ok, SMOOTH_CHILD, SMOOTH_CHILD), {}, {}, Ok, Ok, Done(None), None)

  predicate IsEmail(email: string) {
    email != "" && Emails.Canonical(email)
  }

  /** A visit in which no call fails, to an order with one item whose SKU an active Odoo product has as its code. */
  ghost predicate IsGoodVisit(cfg: Config, visit: Visit) {
    && visit.plan == SMOOTH_ORDER && visit.fetched.Some? && IsEmail(visit.fetched.value.email)
    && |visit.fetched.value.items| == 1
    && var sku := visit.fetched.value.items[0].sku;
    && sku != "" && OrderLines.FirstWithCode(cfg.variants, sku).Some?
  }

  lemma OneLine(cfg: Config, w: World, visit: Visit)
    requires IsGoodVisit(cfg, visit) && w.working.mappings == Mappings(map[], map[])
    ensures var r := OrderLines.Lines(LookupOf(cfg, w.working.mappings, visit.plan), visit.fetched.value.items);
      r.Done? && r.value != []
  {
    var look := LookupOf(cfg, w.working.mappings, visit.plan);
    var items := visit.fetched.value.items;
    assert items == [items[0]] && items[..0] == [];
    assert OrderLines.Lines(look, items[..0]) == Done([]);
    assert OrderLines.FindOdooProductId(look, items[0].sku) == Done(OrderLines.FirstWithCode(cfg.variants, items[0].sku));
  }

  lemma GoodVisitSucceeds(cfg: Config, w: World, id: int, visit: Visit)
    requires IsGoodVisit(cfg, visit) && w.working.mappings == Mappings(map[], map[])
    ensures !SyncOrder(cfg, w, id, visit).raised
    ensures SyncOrder(cfg, w, id, visit).world.working.mappings == w.working.mappings
  {
    Emails.CanonicalIsFixed(visit.fetched.value.email);
    OneLine(cfg, w, visit);
    assert GetOrCreatePartner(w.odoo, w.working.customers, visit.fetched.value.email, visit.plan.customer).got.Done?;
  }

  /** So a new platform makes two sale orders for one order. */
  lemma TwoSaleOrders(cfg: Config, odoo: Odoo, woo: Woo, id: int, visit: Visit)
    requires CanStart(cfg, odoo, woo) && Created(odoo, id) == {} && IsGoodVisit(cfg, visit)
    ensures |Created(Run(cfg, NewPlatform(odoo, woo), [OrderOp(id, visit), RefundOp(id), OrderOp(id, visit)]).odoo, id)| == 2
  {
    var w := NewPlatform(odoo, woo);
    NewPlatformIsSound(cfg, odoo, woo);
    GoodVisitSucceeds(cfg, w, id, visit);
    GoodVisitSucceeds(cfg, RefundOrder(SyncOrder(cfg, w, id, visit).world, id), id, visit);
    RefundedOrderIsMadeAgain(cfg, w, id, visit, visit);
  }

  // ---------- a success taken back ----------

  /** In one pass: first a job whose order is synced already, which counts as a success; then a job whose order
      fails in processing.  The rollback of the second takes the resolution of the first back. */
  lemma SuccessTakenBack(cfg: Config, w: World, a: nat, b: nat, plans: seq<JobPlan>)
    requires |plans| == 2 && ReadyToRun(w, [a, b]) && plans[0].authenticated && plans[1].authenticated
    requires w.working == w.committed && a in w.committed.jobs && b in w.committed.jobs
    requires w.committed.jobs[a].work.OrderWork? && w.committed.jobs[a].work.order != 0 && IsSynced(w.committed, w.committed.jobs[a].work.order)
    requires w.committed.jobs[b].work.OrderWork? && w.committed.jobs[b].work.order != 0 && !IsSynced(w.committed, w.committed.jobs[b].work.order)
    requires plans[1].visit.fetched.Some? && Emails.Normalise(plans[1].visit.fetched.value.email) == ""
    ensures !ExecutionOf(cfg, w, [a, b], plans, 0).raised
    ensures RetryTasks.Failures(cfg, w, [a, b], plans) == 1
    ensures var jobs := RetryPass(cfg, w, [a, b], plans).committed.jobs;
      a in jobs && jobs[a] == w.committed.jobs[a]
  {
    var ready := [a, b];
    assert ready[..0] == [] && plans[..0] == [];
    assert Before(cfg, w, ready, plans, 0) == w;
    assert ExecutionOf(cfg, w, ready, plans, 0) == Executed(w, false, Leaves);
    AttemptAllStep(cfg, w, ready, plans, 1);
    var next := Before(cfg, w, ready, plans, 1);
    assert next.working.orders == w.working.orders;
    assert ExecutionOf(cfg, w, ready, plans, 1).raised && ExecutionOf(cfg, w, ready, plans, 1).ending.RollsBack?;
    assert ready[..1] == [a] && plans[..1] == [plans[0]] && [a][..0] == [] && [plans[0]][..0] == [];
    assert ExecutionOf(cfg, w, [a], [plans[0]], 0) == ExecutionOf(cfg, w, ready, plans, 0);
    assert RetryTasks.Failures(cfg, w, [], []) == 0;
    assert RetryTasks.Failures(cfg, w, [a], [plans[0]]) == 0;
    var endings := Endings(cfg, w, ready, plans);
    assert endings[1] == EndingOf(cfg, w, ready, plans, 1);
    UndoneMeans(endings, 0, 2);
    DurableEffect(cfg, w, ready, plans);
    assert ready[0] == a;
  }

  lemma TwoOrdersDown(cfg: Config, odoo: Odoo, woo: Woo, down: Visit)
    requires down.fetched.None?
    ensures var w := Step(cfg, Step(cfg, NewPlatform(odoo, woo), OrderOp(5, down)), OrderOp(6, down));
      && w.committed == w.working && w.working.mappings == Mappings(map[], map[]) && w.nextJob == 2
      && w.working.jobs == map[0 := NewJob(OrderWork(5), cfg.maxRetries, cfg.delays, down.now),
                               1 := NewJob(OrderWork(6), cfg.maxRetries, cfg.delays, down.now)]
      && !IsSynced(w.working, 5) && !IsSynced(w.working, 6)
  {
  }

  lemma ThenOneGoesThrough(cfg: Config, w: World, good: Visit)
    requires IsGoodVisit(cfg, good) && w.committed == w.working && w.working.mappings == Mappings(map[], map[])
    requires !IsSynced(w.working, 5) && !IsSynced(w.working, 6)
    ensures var after := Step(cfg, w, OrderOp(5, good));
      && after.committed == after.working && after.working.jobs == w.working.jobs && after.nextJob == w.nextJob
      && IsSynced(after.working, 5) && !IsSynced(after.working, 6)
  {
    GoodVisitSucceeds(cfg, w, 5, good);
  }

  /** Such a pass can follow three events on a new platform: two orders fail to be fetched, one of them is then synced. */
  lemma SuccessCanBeTakenBack(cfg: Config, odoo: Odoo, woo: Woo, good: Visit, down: Visit, late: seq<JobPlan>)
    requires CanStart(cfg, odoo, woo) && IsGoodVisit(cfg, good) && down.fetched.None?
    requires |late| == 2 && late[0].authenticated && late[1].authenticated
    requires late[1].visit.fetched.Some? && Emails.Normalise(late[1].visit.fetched.value.email) == ""
    ensures var w := Run(cfg, NewPlatform(odoo, woo), [OrderOp(5, down), OrderOp(6, down), OrderOp(5, good)]);
      && ReadyToRun(w, [0, 1]) && 0 in w.committed.jobs && w.committed.jobs[0].status.Pending?
      && !ExecutionOf(cfg, w, [0, 1], late, 0).raised
      && 0 in RetryPass(cfg, w, [0, 1], late).committed.jobs
      && RetryPass(cfg, w, [0, 1], late).committed.jobs[0].status.Pending?
  {
    var start := NewPlatform(odoo, woo);
    ThreeSteps(cfg, start, OrderOp(5, down), OrderOp(6, down), OrderOp(5, good));
    TwoOrdersDown(cfg, odoo, woo, down);
    var w2 := Step(cfg, Step(cfg, start, OrderOp(5, down)), OrderOp(6, down));
    ThenOneGoesThrough(cfg, w2, good);
    SuccessTakenBack(cfg, Step(cfg, w2, OrderOp(5, good)), 0, 1, late);
  }

  // ---------- a variant lost, a variation or a product doubled ----------

  const TURF := OdooProduct(1, "TURF", "", 2, "grass")
  const ROLL := OdooVariant(7, 1, "TURF-20", true, 1.0, "roll")
  const CATALOGUE := Config(4, [], [TURF], [ROLL])
  const NO_ODOO := Odoo(map[], 1, map[], 1)
  const NO_SHOP := Woo(map[], 1, map[], 1, map[])
  const OLD_SHOP := Woo(map[1 := WooProduct("TURF", "old")], 2, map[1 := Variation(1, "TURF-20", "old")], 2, map[1 := 1])

  lemma CatalogueCanStart()
    ensures CanStart(CATALOGUE, NO_ODOO, NO_SHOP) && VariationRuns.Whole(NO_SHOP)
    ensures CanStart(CATALOGUE, NO_ODOO, OLD_SHOP) && VariationRuns.VariationsUnique(CATALOGUE, NewPlatform(NO_ODOO, OLD_SHOP))
    ensures CataloguePass.IsVariantOf(CATALOGUE.variants, ROLL, TURF)
  {
    assert TURF.code == "TURF" && ROLL.code == "TURF-20";
  }

  lemma MirroredAfterPass(cfg: Config, odoo: Odoo, woo: Woo, p: OdooProduct, v: OdooVariant, now: int)
      returns (x: Id, j: nat)
    requires CanStart(cfg, odoo, woo) && ProductSync.IsSold(cfg.templates, p) && CataloguePass.IsVariantOf(cfg.variants, v, p)
    ensures var end := Step(cfg, NewPlatform(odoo, woo), PassOp(|cfg.templates|, [], now, true));
      CatalogueRuns.Consistent(cfg, end) && VariantSync.MirroredBy(ShelfOf(end), v, x, j)
  {
    var w := NewPlatform(odoo, woo);
    var end := Step(cfg, w, PassOp(|cfg.templates|, [], now, true));
    NewPlatformIsSound(cfg, odoo, woo);
    CatalogueRuns.StepConsistent(cfg, w, PassOp(|cfg.templates|, [], now, true));
    assert CatalogueRuns.ConvergedFrom(cfg, ShelfOf(w), ShelfOf(end)) by {
      CatalogueRuns.FullPassIsPass(cfg, w, [], now);
      CatalogueRuns.PassIsConvergence(cfg, w.committed.mappings, ShelfOf(w), []);
    }
    var i, y :| CataloguePass.DoneFor(ShelfOf(w), ShelfOf(end), cfg.variants, p, i, y);
    x := y;
    assert !CataloguePass.Lost(ShelfOf(w), v);
    assert VariantSync.Mirrored(ShelfOf(end), v, x);
    j :| VariantSync.MirroredBy(ShelfOf(end), v, x, j);
  }

  /** A variation is deleted after the pass that made it: its variant is lost. */
  lemma VariantCanBeLost(cfg: Config, odoo: Odoo, woo: Woo, p: OdooProduct, v: OdooVariant, now: int) returns (z: Id)
    requires CanStart(cfg, odoo, woo) && ProductSync.IsSold(cfg.templates, p) && CataloguePass.IsVariantOf(cfg.variants, v, p)
    ensures CataloguePass.Lost(ShelfOf(Run(cfg, NewPlatform(odoo, woo), [PassOp(|cfg.templates|, [], now, true), VariationOp(z)])), v)
  {
    var x, j := MirroredAfterPass(cfg, odoo, woo, p, v, now);
    var end := Step(cfg, NewPlatform(odoo, woo), PassOp(|cfg.templates|, [], now, true));
    z := end.working.mappings.variants[j].woo.value;
    VariationRuns.DeletedVariationIsLost(cfg, end, v, x, j);
    TwoSteps(cfg, NewPlatform(odoo, woo), PassOp(|cfg.templates|, [], now, true), VariationOp(z));
  }

  lemma RollIsLost(now: int) returns (z: Id)
    ensures CataloguePass.Lost(ShelfOf(Run(CATALOGUE, NewPlatform(NO_ODOO, NO_SHOP), [PassOp(1, [], now, true), VariationOp(z)])), ROLL)
  {
    CatalogueCanStart();
    assert TURF in CATALOGUE.templates;
    z := VariantCanBeLost(CATALOGUE, NO_ODOO, NO_SHOP, TURF, ROLL, now);
  }

  lemma OneVariantDoubled(all: seq<OdooVariant>, durable: Mappings, s: Shelf, v: OdooVariant, x: Id, parent: nat,
      plans: seq<VariantSync.VariantPlan>)
    requires VariantSync.VariantShelf(all, durable, s) && VariantSync.RightPlace(s, x, parent) && VariantSync.IsListed(all, v)
    requires VariationSkus.Doubles(s, v, x, VariantSync.PlanOf(plans, 0))
    ensures |VariationsUnder(VariantSync.SyncVariants(s, [v], x, parent, plans).shelf.woo, x, v.code)|
      == |VariationsUnder(s.woo, x, v.code)| + VariantSync.PlanOf(plans, 0).create.Effects()
  {
    VariationSkus.DoublesAdds(all, durable, s, v, x, parent, VariantSync.PlanOf(plans, 0));
    assert [v][..0] == [];
    assert VariantSync.SyncVariants(s, [], x, parent, plans).shelf == s;
    VariantSync.LastStep(s, [v], x, parent, plans);
  }

  /** A template with one variant, in whose sync the doubling branch is taken. */
  lemma TemplateDoublesVariation(ps: seq<OdooProduct>, all: seq<OdooVariant>, durable: Mappings, s: Shelf, p: OdooProduct,
      plan: ProductSync.ProductPlan, v: OdooVariant)
    requires ProductSync.CatalogueShelf(ps, all, durable, s) && ProductSync.IsSold(ps, p)
    requires VariantSync.ActiveVariants(all, p.id) == [v] && VariantSync.IsListed(all, v)
    requires ProductSync.ResolvedSku(p, plan) != "" && plan.build.None? && plan.fetchVariants.None? && ProductSync.Kind(p).Variable?
    requires var link := ProductSync.LinkProduct(s, p, ProductSync.Sku(p), plan);
      link.got.Done? && VariationSkus.Doubles(link.shelf, v, link.got.value.woo, VariantSync.PlanOf(plan.variants, 0))
    ensures var link := ProductSync.LinkProduct(s, p, ProductSync.Sku(p), plan);
      var after := ProductSync.SyncSingleProduct(s, all, p, plan).shelf.woo;
      |VariationsUnder(after, link.got.value.woo, v.code)|
      == |VariationsUnder(link.shelf.woo, link.got.value.woo, v.code)| + VariantSync.PlanOf(plan.variants, 0).create.Effects()
  {
    var link := ProductSync.LinkProduct(s, p, ProductSync.Sku(p), plan);
    ProductSync.LinkProductGood(ps, all, durable, s, p, plan);
    SettledDoublesVariation(ps, all, durable, link.shelf, p, link.got.value.woo, plan.variants, v);
  }

  lemma SettledDoublesVariation(ps: seq<OdooProduct>, all: seq<OdooVariant>, durable: Mappings, s: Shelf, p: OdooProduct,
      x: Id, plans: seq<VariantSync.VariantPlan>, v: OdooVariant)
    requires ProductSync.CatalogueShelf(ps, all, durable, s) && exists i :: ProductSync.SettledBy(s, p, i, x)
    requires VariantSync.IsListed(all, v) && VariationSkus.Doubles(s, v, x, VariantSync.PlanOf(plans, 0))
    ensures |VariationsUnder(VariantSync.SyncVariants(s, [v], x, ProductSync.ParentRow(s, ProductSync.Sku(p)), plans).shelf.woo, x, v.code)|
      == |VariationsUnder(s.woo, x, v.code)| + VariantSync.PlanOf(plans, 0).create.Effects()
  {
    var i :| ProductSync.SettledBy(s, p, i, x);
    ProductSync.ParentRowIsSettled(s, p, i, x);
    OneVariantDoubled(all, durable, s, v, x, ProductSync.ParentRow(s, ProductSync.Sku(p)), plans);
  }

  const BLIND := CataloguePass.SMOOTH.(variants := [VariantSync.SMOOTH.(listingFails := true)])

  /** The shop has the product and its one variation, the tables are empty, and the lookup fails. */
  lemma AdoptedThenBlind(s: Shelf)
    requires s == ShelfOf(NewPlatform(NO_ODOO, OLD_SHOP))
    ensures var link := ProductSync.LinkProduct(s, TURF, "TURF", BLIND);
      && link.got == Done(ProductSync.Linked(1, false))
      && link.shelf.woo.variations == OLD_SHOP.variations && link.shelf.mappings.variants == map[]
  {
    assert ProductsWithSku(OLD_SHOP, "TURF") == {1};
  }

  /** On the first pass over that shop, the product ends with two variations of the same SKU. */
  lemma RollIsDoubled(now: int)
    ensures VariationsUnder(OLD_SHOP, 1, ROLL.code) == {1}
    ensures |VariationsUnder(Run(CATALOGUE, NewPlatform(NO_ODOO, OLD_SHOP), [PassOp(1, [BLIND], now, true)]).woo, 1, ROLL.code)| == 2
  {
    var w := NewPlatform(NO_ODOO, OLD_SHOP);
    var s := ShelfOf(w);
    CatalogueCanStart();
    NewPlatformIsSound(CATALOGUE, NO_ODOO, OLD_SHOP);
    AdoptedThenBlind(s);
    var link := ProductSync.LinkProduct(s, TURF, "TURF", BLIND);
    assert VariationsUnder(OLD_SHOP, 1, ROLL.code) == {1};
    assert VariationsUnder(link.shelf.woo, 1, ROLL.code) == {1};
    assert VariantSync.ActiveVariants([ROLL], 1) == [ROLL] + VariantSync.ActiveVariants([], 1);
    assert TURF in CATALOGUE.templates && ProductSync.Sku(TURF) == "TURF";
    TemplateDoublesVariation(CATALOGUE.templates, CATALOGUE.variants, w.committed.mappings, s, TURF, BLIND, ROLL);
    OnePass(CATALOGUE, w, TURF, BLIND, now);
  }

  const RESENT := Posting(1, Ok)
  const RESENT_ROLL := CataloguePass.SMOOTH.(variants := [VariantSync.SMOOTH.(create := RESENT)])
  const RESENT_TURF := CataloguePass.SMOOTH.(create := RESENT)

  /** In an empty shop, with empty tables, linking p makes it. */
  lemma LinkedByCreation(s: Shelf, p: OdooProduct, plan: ProductSync.ProductPlan)
    requires s.mappings == Mappings(map[], map[]) && s.woo.products == map[]
    requires plan.lookup.None? && plan.create.last.Ok?
    ensures ProductsWithSku(s.woo, ProductSync.Sku(p)) == {} && ProductSync.ProductRowOf(s.mappings.products, p, ProductSync.Sku(p)) == None
    ensures var link := ProductSync.LinkProduct(s, p, ProductSync.Sku(p), plan);
      && link.got == Done(ProductSync.Linked(s.woo.nextProduct + plan.create.resent, true))
      && link.shelf.woo.variations == s.woo.variations && link.shelf.mappings.variants == map[]
  {
  }

  /** On the first pass over an empty shop every lookup succeeds.  The creation of the variation takes effect, its
      answer is lost on the way, it is sent again, and all calls succeed: two variations of the same SKU. */
  lemma RollIsSentTwice(now: int)
    ensures |VariationsUnder(Run(CATALOGUE, NewPlatform(NO_ODOO, NO_SHOP), [PassOp(1, [RESENT_ROLL], now, true)]).woo, 1, ROLL.code)| == 2
  {
    var w := NewPlatform(NO_ODOO, NO_SHOP);
    var s := ShelfOf(w);
    CatalogueCanStart();
    NewPlatformIsSound(CATALOGUE, NO_ODOO, NO_SHOP);
    assert ProductSync.Sku(TURF) == "TURF";
    LinkedByCreation(s, TURF, RESENT_ROLL);
    var link := ProductSync.LinkProduct(s, TURF, "TURF", RESENT_ROLL);
    assert VariationsUnder(link.shelf.woo, 1, ROLL.code) == {};
    assert VariantSync.ActiveVariants([ROLL], 1) == [ROLL] + VariantSync.ActiveVariants([], 1);
    assert TURF in CATALOGUE.templates && ProductSync.Sku(TURF) == "TURF";
    TemplateDoublesVariation(CATALOGUE.templates, CATALOGUE.variants, w.committed.mappings, s, TURF, RESENT_ROLL, ROLL);
    OnePass(CATALOGUE, w, TURF, RESENT_ROLL, now);
  }

  /** The same of the product itself, whichever it is: all sends that took effect are in the shop. */
  lemma ProductCanBeSentTwice(cfg: Config, odoo: Odoo, woo: Woo, p: OdooProduct, plan: ProductSync.ProductPlan, now: int)
    requires CanStart(cfg, odoo, woo) && cfg.templates == [p] && woo.products == map[]
    requires ProductSync.ResolvedSku(p, plan) != "" && plan.build.None? && plan.lookup.None?
    requires plan.create.last.Ok? && plan.create.resent > 0
    ensures ProductsWithSku(Run(cfg, NewPlatform(odoo, woo), [PassOp(1, [plan], now, true)]).woo, ProductSync.Sku(p))
      == NextIds(woo.nextProduct, plan.create.resent + 1)
  {
    var w := NewPlatform(odoo, woo);
    NewPlatformIsSound(cfg, odoo, woo);
    LinkedByCreation(ShelfOf(w), p, plan);
    ProductSkus.DuplicatesAreMade(cfg.templates, cfg.variants, w.committed.mappings, ShelfOf(w), p, plan);
    OnePass(cfg, w, p, plan, now);
  }

  lemma TurfIsSentTwice(now: int)
    ensures ProductsWithSku(Run(CATALOGUE, NewPlatform(NO_ODOO, NO_SHOP), [PassOp(1, [RESENT_TURF], now, true)]).woo, "TURF") == {1, 2}
  {
    CatalogueCanStart();
    TurfHasItsCode();
    ProductCanBeSentTwice(CATALOGUE, NO_ODOO, NO_SHOP, TURF, RESENT_TURF, now);
    FirstTwoIds();
  }

  lemma TurfHasItsCode()
    ensures ProductSync.Sku(TURF) == ProductSync.ResolvedSku(TURF, RESENT_TURF) == "TURF" != ""
  {
  }

  lemma FirstTwoIds()
    ensures NextIds(1, 2) == {1, 2}
  {
  }

  lemma OnePass(cfg: Config, w: World, p: OdooProduct, plan: ProductSync.ProductPlan, now: int)
    requires cfg.templates == [p]
    ensures Run(cfg, w, [PassOp(1, [plan], now, true)]).woo == ProductSync.SyncSingleProduct(ShelfOf(w), cfg.variants, p, plan).shelf.woo
  {
    var op := PassOp(1, [plan], now, true);
    assert [op][..0] == [] && cfg.templates[..1] == [p] && [p][..0] == [];
    assert Run(cfg, w, []) == w;
    CatalogueRuns.SyncTemplatesIsPass(cfg, w, [p], [plan], now);
    CataloguePass.PassLast(ShelfOf(w), cfg.variants, [p], [plan]);
  }

  // ---------- the same catalogue sells ----------

  const DOWN := Visit(None, SMOOTH_ORDER, 0)
  const GOOD := Visit(Some(OrderData("ann", "100", "9.00", [OrderLines.Item("TURF-20", "", 1, 9.0)])), SMOOTH_ORDER, 0)
  const ANONYMOUS := Visit(Some(OrderData("", "101", "9.00", [])), SMOOTH_ORDER, 0)

  lemma GoodIsGood()
    ensures IsGoodVisit(CATALOGUE, GOOD) && Emails.Normalise("") == "" && Created(NO_ODOO, 5) == {}
  {
    assert "ann"[0] == 'a' && "ann"[1] == 'n' && "ann"[2] == 'n' && |"ann"| == 3;
    assert OrderLines.FirstWithCode([ROLL], "TURF-20") == Some(7);
    assert Emails.Lower("") == "" && Emails.StripLeft("") == "" && Emails.StripRight("") == "";
  }

  lemma RollIsSoldTwice()
    ensures |Created(Run(CATALOGUE, NewPlatform(NO_ODOO, NO_SHOP), [OrderOp(5, GOOD), RefundOp(5), OrderOp(5, GOOD)]).odoo, 5)| == 2
  {
    CatalogueCanStart();
    GoodIsGood();
    TwoSaleOrders(CATALOGUE, NO_ODOO, NO_SHOP, 5, GOOD);
  }

  /** No call fails, nothing is refunded: the process dies once. */
  lemma RollIsSoldTwiceAfterDeath()
    ensures |Created(Run(CATALOGUE, NewPlatform(NO_ODOO, NO_SHOP), [DeathOp(5, GOOD), OrderOp(5, GOOD)]).odoo, 5)| == 2
  {
    var w := NewPlatform(NO_ODOO, NO_SHOP);
    CatalogueCanStart();
    GoodIsGood();
    NewPlatformIsSound(CATALOGUE, NO_ODOO, NO_SHOP);
    GoodVisitSucceeds(CATALOGUE, w, 5, GOOD);
    GoodVisitSucceeds(CATALOGUE, DieInOrder(CATALOGUE, w, 5, GOOD), 5, GOOD);
    OrderIsMadeAgainAfterDeath(CATALOGUE, w, 5, GOOD, GOOD);
  }

  function Retry(visit: Visit): JobPlan {
    JobPlan(true, visit, None, CataloguePass.SMOOTH, InventorySkipped, 60)
  }

  /** The resolution of job 0 is reported and taken back. */
  lemma ResolutionIsTakenBack()
    ensures var w := Run(CATALOGUE, NewPlatform(NO_ODOO, NO_SHOP), [OrderOp(5, DOWN), OrderOp(6, DOWN), OrderOp(5, GOOD)]);
      var plans := [Retry(GOOD), Retry(ANONYMOUS)];
      && ReadyToRun(w, [0, 1]) && 0 in w.committed.jobs && w.committed.jobs[0].status.Pending?
      && !ExecutionOf(CATALOGUE, w, [0, 1], plans, 0).raised
      && 0 in RetryPass(CATALOGUE, w, [0, 1], plans).committed.jobs
      && RetryPass(CATALOGUE, w, [0, 1], plans).committed.jobs[0].status.Pending?
  {
    CatalogueCanStart();
    GoodIsGood();
    SuccessCanBeTakenBack(CATALOGUE, NO_ODOO, NO_SHOP, GOOD, DOWN, [Retry(GOOD), Retry(ANONYMOUS)]);
  }
}
