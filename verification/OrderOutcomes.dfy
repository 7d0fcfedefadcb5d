/** What one event of an order means, column by column: a visit that succeeds, one that fails, a cancellation, a refund. */
module OrderOutcomes {
  import opened Outcomes
  import opened Tables
  import opened OdooApi
  import opened FailedJobs
  import opened OrderLines
  import opened CustomerSync
  import opened Worlds
  import opened OrderSync
  import CustomerOutcomes

  // ---------- what is sold ----------

  /** What a lookup for this attempt reads. */
  function Reading(cfg: Config, w: World, plan: OrderPlan): Lookup {
    Lookup(w.working.mappings, cfg.variants, plan.templateDown, plan.codeDown)
  }

  /** The sale order holds the whole WooCommerce order: a line for every item that is found and for no other, in order,
      for the three partners of its customer. */
  ghost predicate HoldsOrder(cfg: Config, w: World, id: int, data: OrderData, plan: OrderPlan, odoo: Odoo, sale: Id) {
    && sale in odoo.sales
    && var s := odoo.sales[sale];
    && s.madeFor == id && !s.cancelled
    && (exists picks :: IsProjection(Reading(cfg, w, plan), data.items, s.lines, picks))
    && ThreePartners(odoo, Emails.Normalise(data.email), s.partners)
  }

  /** Of every attempt, whether it succeeds or not: a sale order that it makes holds the whole order, and it is confirmed
      exactly if its confirmation took effect. */
  lemma SaleHoldsOrder(cfg: Config, w: World, id: int, data: OrderData, plan: OrderPlan)
    requires WellFormed(w.odoo) && MappingsSound(w.working.customers, w.odoo)
    ensures var a := ProcessOrder(cfg, w, id, data, plan);
      a.made.Some? ==>
        && a.made == Some(w.odoo.nextSale) && HoldsOrder(cfg, w, id, data, plan, a.odoo, a.made.value)
        && (a.odoo.sales[a.made.value].confirmed <==> plan.create.Ok? && plan.confirm.TookEffect())
  {
    var a := ProcessOrder(cfg, w, id, data, plan);
    if a.made.Some? {
      var partners := GetOrCreatePartner(w.odoo, w.working.customers, data.email, plan.customer);
      var lines := Lines(Reading(cfg, w, plan), data.items);
      ProcessOrderPlaces(cfg, w, id, data, plan);
      PartnersGuarantee(w.odoo, w.working.customers, data.email, plan.customer);
      PlacedSale(partners.odoo, partners.customers, id, partners.got.value, lines.value, plan);
      var picks := LinesAreProjection(Reading(cfg, w, plan), data.items);
      SamePartnersSameThree(partners.odoo, a.odoo, Emails.Normalise(data.email), partners.got.value);
    }
  }

  /** An attempt that makes a sale order makes it for the partners found and of all the lines. */
  lemma ProcessOrderPlaces(cfg: Config, w: World, id: int, data: OrderData, plan: OrderPlan)
    requires ProcessOrder(cfg, w, id, data, plan).made.Some?
    ensures var partners := GetOrCreatePartner(w.odoo, w.working.customers, data.email, plan.customer);
      var lines := Lines(Reading(cfg, w, plan), data.items);
      && partners.got.Done? && lines.Done?
      && ProcessOrder(cfg, w, id, data, plan)
         == PlaceSale(partners.odoo, partners.customers, id, partners.got.value, lines.value, plan)
  {
  }

  lemma PlacedSale(odoo: Odoo, customers: map<string, Id>, id: int, ids: PartnerIds, lines: seq<OrderLine>, plan: OrderPlan)
    requires PlaceSale(odoo, customers, id, ids, lines, plan).made.Some?
    ensures var a := PlaceSale(odoo, customers, id, ids, lines, plan);
      && a.made == Some(odoo.nextSale) && odoo.nextSale in a.odoo.sales && a.odoo.partners == odoo.partners
      && a.odoo.sales[odoo.nextSale] == SaleOrder(id, ids, lines, plan.create.Ok? && plan.confirm.TookEffect(), false)
  {
  }

  lemma SamePartnersSameThree(before: Odoo, after: Odoo, email: string, ids: PartnerIds)
    requires after.partners == before.partners && ThreePartners(before, email, ids)
    ensures ThreePartners(after, email, ids)
  {
  }

  /** The partners are had, no lookup of an item raises, and some item is found. */
  ghost predicate ReachesSale(cfg: Config, w: World, data: OrderData, plan: OrderPlan) {
    && GetOrCreatePartner(w.odoo, w.working.customers, data.email, plan.customer).got.Done?
    && (forall i :: 0 <= i < |data.items| && data.items[i].sku != "" ==>
          FindOdooProductId(Reading(cfg, w, plan), data.items[i].sku).Done?)
    && exists i :: 0 <= i < |data.items| && IsFound(Reading(cfg, w, plan), data.items[i])
  }

  /** An attempt that gets so far makes a sale order exactly if the creation takes effect, and it succeeds exactly if the sale
      order is created and confirmed, and neither invoicing nor posting raises anything but an API error. */
  lemma AttemptSucceedsIff(cfg: Config, w: World, id: int, data: OrderData, plan: OrderPlan)
    ensures var a := ProcessOrder(cfg, w, id, data, plan);
      && (a.made.Some? <==> ReachesSale(cfg, w, data, plan) && plan.create.TookEffect())
      && (a.got.Done? <==>
            && ReachesSale(cfg, w, data, plan)
            && plan.create.Ok? && plan.confirm.Ok? && plan.invoice != Raised(Other)
            && (plan.invoice.Done? && plan.invoice.value.Some? ==> plan.post != Some(Other)))
  {
    LinesRaiseIff(Reading(cfg, w, plan), data.items);
    if Lines(Reading(cfg, w, plan), data.items).Done? {
      EmptyLinesIffNothingResolves(Reading(cfg, w, plan), data.items);
    }
  }

  /** Whatever becomes of an attempt, Odoo keeps the partners that were found or made for it, and every sale order that was
      there before as it was. */
  lemma AttemptLeaves(cfg: Config, w: World, id: int, data: OrderData, plan: OrderPlan)
    requires WellFormed(w.odoo) && MappingsSound(w.working.customers, w.odoo)
    ensures var a := ProcessOrder(cfg, w, id, data, plan);
      && a.odoo.partners == GetOrCreatePartner(w.odoo, w.working.customers, data.email, plan.customer).odoo.partners
      && (forall sale :: sale in w.odoo.sales ==> sale in a.odoo.sales && a.odoo.sales[sale] == w.odoo.sales[sale])
      && (forall sale :: sale in a.odoo.sales ==> sale in w.odoo.sales || a.made == Some(sale))
  {
    var partners := GetOrCreatePartner(w.odoo, w.working.customers, data.email, plan.customer);
    PartnersGuarantee(w.odoo, w.working.customers, data.email, plan.customer);
    if ProcessOrder(cfg, w, id, data, plan).made.Some? {
      ProcessOrderPlaces(cfg, w, id, data, plan);
      var lines := Lines(Reading(cfg, w, plan), data.items).value;
      PlacingLeaves(partners.odoo, partners.customers, id, partners.got.value, lines, plan);
    } else {
      NothingPlaced(cfg, w, id, data, plan);
    }
  }

  lemma PlacingLeaves(odoo: Odoo, customers: map<string, Id>, id: int, ids: PartnerIds, lines: seq<OrderLine>,
      plan: OrderPlan)
    requires WellFormed(odoo)
    ensures var a := PlaceSale(odoo, customers, id, ids, lines, plan);
      && a.odoo.partners == odoo.partners
      && (forall sale :: sale in odoo.sales ==> sale in a.odoo.sales && a.odoo.sales[sale] == odoo.sales[sale])
      && (forall sale :: sale in a.odoo.sales ==> sale in odoo.sales || a.made == Some(sale))
  {
  }

  lemma NothingPlaced(cfg: Config, w: World, id: int, data: OrderData, plan: OrderPlan)
    requires ProcessOrder(cfg, w, id, data, plan).made.None?
    ensures ProcessOrder(cfg, w, id, data, plan).odoo
      == GetOrCreatePartner(w.odoo, w.working.customers, data.email, plan.customer).odoo
  {
  }

  // ---------- a visit ----------

  /** Every other row of the table is as it was. */
  ghost predicate OnlyRow(before: map<int, OrderRow>, after: map<int, OrderRow>, id: int) {
    && id in after
    && forall other :: other != id ==>
         && (other in after <==> other in before)
         && (other in before ==> after[other] == before[other])
  }

  /** The row of a visit that succeeded.  A row that was there before keeps its number and total. */
  ghost predicate SaysSynced(before: map<int, OrderRow>, row: OrderRow, id: int, data: OrderData, plan: OrderPlan, sale: Id) {
    && row.status.Synced? && row.odooOrder == Some(sale)
    && row.number == (if id in before then before[id].number else Some(data.number))
    && row.total == (if id in before then before[id].total else Some(data.total))
    && row.invoice == (if plan.invoice.Done? && plan.invoice.value.Some? then plan.invoice.value
                       else if id in before then before[id].invoice else None)
  }

  lemma RemembersContact(cfg: Config, w: World, id: int, data: OrderData, plan: OrderPlan)
    requires WellFormed(w.odoo) && MappingsSound(w.working.customers, w.odoo)
    requires ProcessOrder(cfg, w, id, data, plan).made.Some?
    ensures var a := ProcessOrder(cfg, w, id, data, plan);
      && a.made.value in a.odoo.sales
      && a.customers == w.working.customers[Emails.Normalise(data.email) := a.odoo.sales[a.made.value].partners.contact]
  {
    var partners := GetOrCreatePartner(w.odoo, w.working.customers, data.email, plan.customer);
    ProcessOrderPlaces(cfg, w, id, data, plan);
    var lines := Lines(Reading(cfg, w, plan), data.items).value;
    PlacedSale(partners.odoo, partners.customers, id, partners.got.value, lines, plan);
    CustomerOutcomes.PartnersMean(w.odoo, w.working.customers, data.email, plan.customer);
  }

  /** What a successful attempt reports: the sale order that it made, and the invoice if one was answered. */
  lemma AttemptReports(cfg: Config, w: World, id: int, data: OrderData, plan: OrderPlan)
    requires ProcessOrder(cfg, w, id, data, plan).got.Done?
    ensures var a := ProcessOrder(cfg, w, id, data, plan);
      a.made.Some? && a.got.value == Sale(a.made.value, if plan.invoice.Done? then plan.invoice.value else None)
  {
    AttemptSucceedsIff(cfg, w, id, data, plan);
    ProcessOrderPlaces(cfg, w, id, data, plan);
    var partners := GetOrCreatePartner(w.odoo, w.working.customers, data.email, plan.customer);
    var lines := Lines(Reading(cfg, w, plan), data.items).value;
    PlacingReports(partners.odoo, partners.customers, id, partners.got.value, lines, plan);
  }

  lemma PlacingReports(odoo: Odoo, customers: map<string, Id>, id: int, ids: PartnerIds, lines: seq<OrderLine>, plan: OrderPlan)
    requires PlaceSale(odoo, customers, id, ids, lines, plan).got.Done?
    ensures var a := PlaceSale(odoo, customers, id, ids, lines, plan);
      a.made.Some? && a.got.value == Sale(a.made.value, if plan.invoice.Done? then plan.invoice.value else None)
  {
  }

  lemma SucceedsAs(cfg: Config, w: World, id: int, visit: Visit)
    requires !IsSynced(w.working, id) && !SyncOrder(cfg, w, id, visit).raised
    ensures visit.fetched.Some?
    ensures var a := ProcessOrder(cfg, w, id, visit.fetched.value, visit.plan);
      && a.got.Done?
      && SyncOrder(cfg, w, id, visit).world
         == Commit(w.(odoo := a.odoo,
                      working := WithRow(w.working, id, SyncedRow(RowOf(w.working, id), visit.fetched.value, a.got.value))
                                 .(customers := a.customers)))
  {
  }

  /** A visit that succeeds commits the row of the order, which names the sale order made in this very visit, the contact it
      was made for under the customer's address, and everything else that the session held. */
  lemma SuccessMeans(cfg: Config, w: World, id: int, visit: Visit)
    requires OrdersSound(w) && !IsSynced(w.working, id) && !SyncOrder(cfg, w, id, visit).raised
    ensures var after := SyncOrder(cfg, w, id, visit).world;
      && visit.fetched.Some? && after.committed == after.working
      && HoldsOrder(cfg, w, id, visit.fetched.value, visit.plan, after.odoo, w.odoo.nextSale)
      && after.odoo.sales[w.odoo.nextSale].confirmed
      && OnlyRow(w.working.orders, after.committed.orders, id)
      && SaysSynced(w.working.orders, after.committed.orders[id], id, visit.fetched.value, visit.plan, w.odoo.nextSale)
      && after.committed.customers
         == w.working.customers[Emails.Normalise(visit.fetched.value.email) :=
                                  after.odoo.sales[w.odoo.nextSale].partners.contact]
      && after.committed.jobs == w.working.jobs && after.committed.mappings == w.working.mappings
      && after == w.(working := after.working, committed := after.committed, odoo := after.odoo)
  {
    SucceedsAs(cfg, w, id, visit);
    AttemptReports(cfg, w, id, visit.fetched.value, visit.plan);
    AttemptSucceedsIff(cfg, w, id, visit.fetched.value, visit.plan);
    SaleHoldsOrder(cfg, w, id, visit.fetched.value, visit.plan);
    RemembersContact(cfg, w, id, visit.fetched.value, visit.plan);
  }

  /** The job that a failure at this time puts on the queue. */
  function FreshJob(cfg: Config, work: Work, now: int): Job {
    Job(work, 0, cfg.maxRetries, Some(now + Delays(cfg.delays)[0]), JobStatus.Pending, now, None)
  }

  /** What is left after a failure: the order's row says so and keeps its other columns, one job repeats the order after the
      first delay, and both are committed on top of base. */
  ghost predicate SaysFailed(cfg: Config, base: Database, nextJob: nat, after: Database, id: int, now: int) {
    && OnlyRow(base.orders, after.orders, id)
    && after.orders[id].status.Failed?
    && (id in base.orders ==> after.orders[id] == base.orders[id].(status := OrderStatus.Failed))
    && (id !in base.orders ==> after.orders[id] == OrderRow(None, None, None, None, OrderStatus.Failed))
    && after.jobs == base.jobs[nextJob := FreshJob(cfg, OrderWork(id), now)]
    && after.customers == base.customers && after.mappings == base.mappings
  }

  /** A visit that cannot fetch the order keeps what the session held; one that fails in processing loses it.  Odoo keeps
      whatever was done there. */
  lemma FailureMeans(cfg: Config, w: World, id: int, visit: Visit)
    requires !IsSynced(w.working, id) && SyncOrder(cfg, w, id, visit).raised
    ensures var after := SyncOrder(cfg, w, id, visit).world;
      && after.committed == after.working && after.nextJob == w.nextJob + 1
      && SaysFailed(cfg, if visit.fetched.None? then w.working else w.committed, w.nextJob, after.committed, id, visit.now)
      && after.odoo == (if visit.fetched.None? then w.odoo else ProcessOrder(cfg, w, id, visit.fetched.value, visit.plan).odoo)
      && after.woo == w.woo
  {
  }

  /** An order that is SYNCED is not looked at again, and a payload without an id leaves no trace. */
  lemma SkippedMeans(cfg: Config, w: World, id: int, visit: Visit)
    ensures IsSynced(w.working, id) ==> SyncOrder(cfg, w, id, visit) == Executed(w, false, Leaves)
    ensures id in w.working.orders && !w.working.orders[id].status.Synced? && visit.fetched.None? ==>
      SyncOrder(cfg, w, id, visit).raised
    ensures SyncOrderFromPayload(cfg, w, 0, visit) == Executed(w, true, Leaves)
    ensures id != 0 ==> SyncOrderFromPayload(cfg, w, id, visit) == SyncOrder(cfg, w, id, visit)
  {
  }

  /** The visit comes to the creation of a sale order, and that takes effect. */
  ghost predicate Sells(cfg: Config, w: World, id: int, visit: Visit) {
    && !IsSynced(w.working, id) && visit.fetched.Some?
    && ReachesSale(cfg, w, visit.fetched.value, visit.plan) && visit.plan.create.TookEffect()
  }

  /** A process that dies in a visit leaves the database as it was committed, and Odoo with one sale order more exactly if
      one was made until then; it holds the whole order, and no row names it. */
  lemma DeathMeans(cfg: Config, w: World, id: int, visit: Visit)
    requires OrdersSound(w)
    ensures var after := DieInOrder(cfg, w, id, visit);
      && after.committed == after.working == w.committed
      && after == w.(working := w.committed, odoo := after.odoo)
      && (IsSynced(w.working, id) || visit.fetched.None? ==> after.odoo == w.odoo)
      && (Sells(cfg, w, id, visit) ==> w.odoo.nextSale in after.odoo.sales)
      && forall sale :: sale in after.odoo.sales && sale !in w.odoo.sales ==>
           && sale == w.odoo.nextSale && visit.fetched.Some?
           && HoldsOrder(cfg, w, id, visit.fetched.value, visit.plan, after.odoo, sale)
           && forall other :: other in after.working.orders ==> after.working.orders[other].odooOrder != Some(sale)
  {
    if !IsSynced(w.working, id) && visit.fetched.Some? {
      AttemptSucceedsIff(cfg, w, id, visit.fetched.value, visit.plan);
      SaleHoldsOrder(cfg, w, id, visit.fetched.value, visit.plan);
      ProcessOrderSound(cfg, w, id, visit.fetched.value, visit.plan);
      forall other | other in w.working.orders ensures NamesItsSale(w.odoo, other, w.working.orders[other]) {
      }
    }
  }

  // ---------- cancellation and refund ----------

  /** No sale order but this one changes, and nothing of it but that it is cancelled. */
  ghost predicate OnlyCancels(before: Odoo, after: Odoo, sale: Id) {
    && after.partners == before.partners && after.sales.Keys == before.sales.Keys
    && (sale in before.sales ==> after.sales[sale].cancelled)
    && forall i :: i in before.sales ==>
         && (i != sale ==> after.sales[i] == before.sales[i])
         && after.sales[i].madeFor == before.sales[i].madeFor && after.sales[i].partners == before.sales[i].partners
         && after.sales[i].lines == before.sales[i].lines && after.sales[i].confirmed == before.sales[i].confirmed
  }

  /** A cancellation reaches the sale order that the row names if the call takes effect, whatever is answered.  The row says
      CANCELLED unless the call raises anything but an API error, and then nothing is committed. */
  lemma CancellationMeans(w: World, id: int, call: Call)
    ensures var after := CancelOrder(w, id, call);
      if id !in w.working.orders then after == w
      else
        var row := w.working.orders[id];
        && (if row.odooOrder.Some? && call.TookEffect() then OnlyCancels(w.odoo, after.odoo, row.odooOrder.value)
            else after.odoo == w.odoo)
        && if row.odooOrder.Some? && (call == Lost(Other) || call == Late(Other)) then after == w.(odoo := after.odoo)
           else
             && after.committed == after.working && after.woo == w.woo
             && OnlyRow(w.working.orders, after.committed.orders, id)
             && after.committed.orders[id] == row.(status := OrderStatus.Cancelled)
             && after.committed == w.working.(orders := after.committed.orders)
  {
  }

  /** A refund only marks the row; the sale order in Odoo stays as it is. */
  lemma RefundMeans(w: World, id: int)
    ensures var after := RefundOrder(w, id);
      if id !in w.working.orders then after == w
      else
        && after == w.(working := after.working, committed := after.working)
        && OnlyRow(w.working.orders, after.committed.orders, id)
        && after.committed.orders[id] == w.working.orders[id].(status := OrderStatus.Refunded)
        && after.committed == w.working.(orders := after.committed.orders)
  {
  }
}
