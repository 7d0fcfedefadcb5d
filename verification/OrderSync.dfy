/** WooCommerce order to Odoo sale order. */
module OrderSync {
  import opened Outcomes
  import opened Tables
  import opened OdooApi
  import opened OrderLines
  import opened CustomerSync
  import opened Worlds

  /** The fetched order, as far as it is read. */
  datatype OrderData = OrderData(email: string, number: string, total: string, items: seq<Item>)

  /** Outcomes of the calls of one attempt, in the order they are made. */
  datatype OrderPlan = OrderPlan(
    customer: CustomerPlan,
    templateDown: set<string>,
    codeDown: set<string>,
    create: Call,
    confirm: Call,
    invoice: Result<Option<Id>>,
    post: Option<Fault>)

  /** One visit to an order: what WooCommerce answers (None if fetching or parsing fails), the
      outcomes of the calls to Odoo, and the clock. */
  datatype Visit = Visit(fetched: Option<OrderData>, plan: OrderPlan, now: int)

  datatype Sale = Sale(order: Id, invoice: Option<Id>)

  /** made is the sale order that came into being in Odoo during the attempt, whether or not the attempt succeeded. */
  datatype Attempt = Attempt(odoo: Odoo, customers: map<string, Id>, made: Option<Id>, got: Result<Sale>)

  // ---------- one attempt ----------

  function PlaceSale(odoo: Odoo, customers: map<string, Id>, id: int, ids: PartnerIds, lines: seq<OrderLine>,
      plan: OrderPlan): Attempt {
    var created := CreateSale(odoo, SaleOrder(id, ids, lines, false, false), plan.create);
    var made := if plan.create.TookEffect() then Some(odoo.nextSale) else None;
    match created.got
    case Raised(f) => Attempt(created.odoo, customers, made, Raised(f))
    case Done(order) =>
      var confirmed := Confirm(created.odoo, order, plan.confirm);
      if !plan.confirm.Ok? then Attempt(confirmed, customers, made, Raised(plan.confirm.fault))
      else if plan.invoice == Raised(Other) then Attempt(confirmed, customers, made, Raised(Other))
      else
        var invoice := if plan.invoice.Done? then plan.invoice.value else None;
        if invoice.Some? && plan.post == Some(Other) then Attempt(confirmed, customers, made, Raised(Other))
        else Attempt(confirmed, customers, made, Done(Sale(order, invoice)))
  }

  function LookupOf(cfg: Config, mappings: Mappings, plan: OrderPlan): Lookup {
    Lookup(mappings, cfg.variants, plan.templateDown, plan.codeDown)
  }

  function ProcessOrder(cfg: Config, w: World, id: int, data: OrderData, plan: OrderPlan): Attempt {
    var partners := GetOrCreatePartner(w.odoo, w.working.customers, data.email, plan.customer);
    match partners.got
    case Raised(f) => Attempt(partners.odoo, partners.customers, None, Raised(f))
    case Done(ids) =>
      match Lines(LookupOf(cfg, w.working.mappings, plan), data.items)
      case Raised(f) => Attempt(partners.odoo, partners.customers, None, Raised(f))
      case Done(lines) =>
        if lines == [] then Attempt(partners.odoo, partners.customers, None, Raised(Other))
        else PlaceSale(partners.odoo, partners.customers, id, ids, lines, plan)
  }

  // ---------- the order row ----------

  /** update ignores None arguments: an older invoice id survives, and number and total are never refreshed. */
  function SyncedRow(existing: Option<OrderRow>, data: OrderData, sale: Sale): OrderRow {
    match existing
    case Some(row) =>
      row.(odooOrder := Some(sale.order), invoice := if sale.invoice.Some? then sale.invoice else row.invoice,
           status := OrderStatus.Synced)
    case None => OrderRow(Some(sale.order), Some(data.number), sale.invoice, Some(data.total), OrderStatus.Synced)
  }

  function FailedRow(existing: Option<OrderRow>): OrderRow {
    match existing
    case Some(row) => row.(status := OrderStatus.Failed)
    case None => OrderRow(None, None, None, None, OrderStatus.Failed)
  }

  function RowOf(db: Database, id: int): Option<OrderRow> {
    if id in db.orders then Some(db.orders[id]) else None
  }

  predicate IsSynced(db: Database, id: int) {
    id in db.orders && db.orders[id].status.Synced?
  }

  function WithRow(db: Database, id: int, row: OrderRow): Database {
    db.(orders := db.orders[id := row])
  }

  // ---------- the service ----------

  /** _handle_order_error: enqueue a retry, mark the row failed, commit. */
  function HandleOrderError(cfg: Config, w: World, id: int, now: int): World {
    var queued := Enqueue(cfg, w, OrderWork(id), now);
    Commit(queued.(working := WithRow(queued.working, id, FailedRow(RowOf(queued.working, id)))))
  }

  function SyncOrder(cfg: Config, w: World, id: int, visit: Visit): Executed {
    if IsSynced(w.working, id) then Executed(w, false, Leaves)
    else match visit.fetched
      case None => Executed(HandleOrderError(cfg, w, id, visit.now), true, Commits)
      case Some(data) =>
        var attempt := ProcessOrder(cfg, w, id, data, visit.plan);
        match attempt.got
        case Raised(_) =>
          Executed(HandleOrderError(cfg, Rollback(w).(odoo := attempt.odoo), id, visit.now), true, RollsBack)
        case Done(sale) =>
          var row := SyncedRow(RowOf(w.working, id), data, sale);
          var db := WithRow(w.working, id, row).(customers := attempt.customers);
          Executed(Commit(w.(working := db, odoo := attempt.odoo)), false, Commits)
  }

  /** The process dies in an attempt, before its commit: the session is lost, and Odoo keeps what the calls made until
      then have done.  A call of the visit that raises is the last one made. */
  function DieInOrder(cfg: Config, w: World, id: int, visit: Visit): World {
    if IsSynced(w.working, id) || visit.fetched.None? then Rollback(w)
    else Rollback(w).(odoo := ProcessOrder(cfg, w, id, visit.fetched.value, visit.plan).odoo)
  }

  /** A webhook payload without an order id is answered as failed and leaves no trace. */
  function SyncOrderFromPayload(cfg: Config, w: World, id: int, visit: Visit): Executed {
    if id == 0 then Executed(w, true, Leaves) else SyncOrder(cfg, w, id, visit)
  }

  /** An OdooAPIError of action_cancel is swallowed; any other exception aborts the handler. */
  function CancelOrder(w: World, id: int, call: Call): World {
    match RowOf(w.working, id)
    case None => w
    case Some(row) =>
      var odoo := if row.odooOrder.Some? then CancelSale(w.odoo, row.odooOrder.value, call) else w.odoo;
      if row.odooOrder.Some? && !call.Ok? && call.fault.Other? then w.(odoo := odoo)
      else Commit(w.(working := WithRow(w.working, id, row.(status := OrderStatus.Cancelled)), odoo := odoo))
  }

  function RefundOrder(w: World, id: int): World {
    match RowOf(w.working, id)
    case None => w
    case Some(row) => Commit(w.(working := WithRow(w.working, id, row.(status := OrderStatus.Refunded))))
  }

  // ---------- what a synced row stands for ----------

  ghost predicate NamesItsSale(odoo: Odoo, id: int, row: OrderRow) {
    row.odooOrder.Some? ==> row.odooOrder.value in Created(odoo, id)
  }

  ghost predicate ProperSale(odoo: Odoo, id: int, order: Id) {
    && order in Created(odoo, id)
    && var sale := odoo.sales[order];
    && sale.confirmed
    && sale.lines != []
    && exists email :: ThreePartners(odoo, email, sale.partners)
  }

  /** Order rows are never left uncommitted; every row that names a sale order names one made for that very
      WooCommerce order, and a synced row names a confirmed one with lines and three different partners. */
  ghost predicate OrdersSound(w: World) {
    && WellFormed(w.odoo)
    && w.working.orders == w.committed.orders
    && MappingsSound(w.working.customers, w.odoo)
    && MappingsSound(w.committed.customers, w.odoo)
    && (forall id :: id in w.working.orders ==>
          && NamesItsSale(w.odoo, id, w.working.orders[id])
          && (w.working.orders[id].status.Synced? ==>
                w.working.orders[id].odooOrder.Some? && ProperSale(w.odoo, id, w.working.orders[id].odooOrder.value)))
  }

  lemma DistinctRowsNameDistinctSales(w: World, a: int, b: int)
    requires OrdersSound(w) && a in w.working.orders && b in w.working.orders && a != b
    requires w.working.orders[a].odooOrder.Some?
    ensures w.working.orders[a].odooOrder != w.working.orders[b].odooOrder
  {
    assert NamesItsSale(w.odoo, a, w.working.orders[a]) && NamesItsSale(w.odoo, b, w.working.orders[b]);
  }

  /** Sale orders stay, keep their lines and partners, and stay confirmed. */
  ghost predicate SalesKept(before: Odoo, after: Odoo) {
    && Grows(before, after)
    && forall s :: s in before.sales ==>
         && after.sales[s].lines == before.sales[s].lines
         && after.sales[s].partners == before.sales[s].partners
         && (before.sales[s].confirmed ==> after.sales[s].confirmed)
  }

  lemma KeptSalesStayProper(before: Odoo, after: Odoo, id: int, order: Id)
    requires SalesKept(before, after) && ProperSale(before, id, order)
    ensures ProperSale(after, id, order)
  {
    var ids := before.sales[order].partners;
    var email :| ThreePartners(before, email, ids);
    assert ThreePartners(after, email, ids);
  }

  ghost predicate AttemptSound(odoo: Odoo, id: int, a: Attempt) {
    && WellFormed(a.odoo) && SalesKept(odoo, a.odoo) && NoDuplicatePartners(odoo, a.odoo)
    && MappingsSound(a.customers, a.odoo)
    && (forall s :: s in a.odoo.sales ==> s in odoo.sales || Some(s) == a.made)
    && (a.made.Some? ==> a.made.value in Created(a.odoo, id) && a.made.value !in odoo.sales)
    && (a.got.Done? ==> a.made == Some(a.got.value.order) && ProperSale(a.odoo, id, a.got.value.order))
  }

  lemma CreateSaleKeeps(odoo: Odoo, sale: SaleOrder, call: Call)
    requires WellFormed(odoo)
    ensures var after := CreateSale(odoo, sale, call).odoo;
      && WellFormed(after) && SalesKept(odoo, after) && after.partners == odoo.partners
      && (call.TookEffect() ==> after.sales == odoo.sales[odoo.nextSale := sale] && odoo.nextSale !in odoo.sales)
      && (!call.TookEffect() ==> after.sales == odoo.sales)
  {
  }

  lemma ConfirmKeeps(odoo: Odoo, order: Id, call: Call)
    requires WellFormed(odoo) && order in odoo.sales
    ensures var after := Confirm(odoo, order, call);
      && WellFormed(after) && SalesKept(odoo, after) && after.partners == odoo.partners
      && after.sales.Keys == odoo.sales.Keys
      && (call.TookEffect() ==> after.sales[order] == odoo.sales[order].(confirmed := true))
  {
  }

  lemma SalesKeptTrans(a: Odoo, b: Odoo, c: Odoo)
    requires SalesKept(a, b) && SalesKept(b, c)
    ensures SalesKept(a, c)
  {
  }

  /** What the calls of PlaceSale leave in Odoo. */
  lemma PlaceSaleKeeps(odoo: Odoo, customers: map<string, Id>, id: int, ids: PartnerIds, lines: seq<OrderLine>,
      plan: OrderPlan)
    requires WellFormed(odoo)
    ensures var a := PlaceSale(odoo, customers, id, ids, lines, plan);
      var sale := SaleOrder(id, ids, lines, false, false);
      && WellFormed(a.odoo) && SalesKept(odoo, a.odoo) && a.odoo.partners == odoo.partners && a.customers == customers
      && (forall s :: s in a.odoo.sales ==> s in odoo.sales || Some(s) == a.made)
      && (a.made.Some? ==> a.made.value !in odoo.sales && a.made.value in a.odoo.sales)
      && (a.made.Some? ==> a.odoo.sales[a.made.value] == sale.(confirmed := a.odoo.sales[a.made.value].confirmed))
      && (a.got.Done? ==> a.made == Some(a.got.value.order) && a.odoo.sales[a.got.value.order].confirmed)
  {
    var a := PlaceSale(odoo, customers, id, ids, lines, plan);
    var created := CreateSale(odoo, SaleOrder(id, ids, lines, false, false), plan.create);
    CreateSaleKeeps(odoo, SaleOrder(id, ids, lines, false, false), plan.create);
    if created.got.Done? {
      ConfirmKeeps(created.odoo, odoo.nextSale, plan.confirm);
      assert a.odoo == Confirm(created.odoo, odoo.nextSale, plan.confirm);
      SalesKeptTrans(odoo, created.odoo, a.odoo);
    } else {
      assert a.odoo == created.odoo;
    }
  }

  lemma PlaceSaleSound(odoo: Odoo, customers: map<string, Id>, id: int, email: string, ids: PartnerIds,
      lines: seq<OrderLine>, plan: OrderPlan)
    requires WellFormed(odoo) && MappingsSound(customers, odoo) && ThreePartners(odoo, email, ids) && lines != []
    ensures AttemptSound(odoo, id, PlaceSale(odoo, customers, id, ids, lines, plan))
  {
    var a := PlaceSale(odoo, customers, id, ids, lines, plan);
    PlaceSaleKeeps(odoo, customers, id, ids, lines, plan);
    SamePartners(odoo, a.odoo);
    GrowsKeepsMappings(customers, odoo, a.odoo);
    if a.got.Done? {
      assert ThreePartners(a.odoo, email, ids);
      assert ProperSale(a.odoo, id, a.got.value.order);
    }
  }

  lemma ProcessOrderSound(cfg: Config, w: World, id: int, data: OrderData, plan: OrderPlan)
    requires WellFormed(w.odoo) && MappingsSound(w.working.customers, w.odoo)
    ensures AttemptSound(w.odoo, id, ProcessOrder(cfg, w, id, data, plan))
  {
    var partners := GetOrCreatePartner(w.odoo, w.working.customers, data.email, plan.customer);
    PartnersGuarantee(w.odoo, w.working.customers, data.email, plan.customer);
    var a := ProcessOrder(cfg, w, id, data, plan);
    var lines := Lines(LookupOf(cfg, w.working.mappings, plan), data.items);
    if partners.got.Done? && lines.Done? && lines.value != [] {
      PlaceSaleSound(partners.odoo, partners.customers, id, Emails.Normalise(data.email), partners.got.value, lines.value, plan);
      NoDuplicatePartnersTrans(w.odoo, partners.odoo, a.odoo);
    }
  }

  /** Rows survive a step of Odoo that keeps its sales. */
  lemma RowsSurvive(w: World, after: Odoo)
    requires OrdersSound(w) && SalesKept(w.odoo, after) && WellFormed(after)
    ensures OrdersSound(w.(odoo := after))
  {
    GrowsKeepsMappings(w.working.customers, w.odoo, after);
    GrowsKeepsMappings(w.committed.customers, w.odoo, after);
    forall id | id in w.working.orders && w.working.orders[id].status.Synced?
      ensures ProperSale(after, id, w.working.orders[id].odooOrder.value) {
      KeptSalesStayProper(w.odoo, after, id, w.working.orders[id].odooOrder.value);
    }
  }

  lemma SyncOrderSound(cfg: Config, w: World, id: int, visit: Visit)
    requires OrdersSound(w)
    ensures OrdersSound(SyncOrder(cfg, w, id, visit).world)
    ensures NoDuplicatePartners(w.odoo, SyncOrder(cfg, w, id, visit).world.odoo)
  {
    SamePartners(w.odoo, w.odoo);
    if !IsSynced(w.working, id) && visit.fetched.Some? {
      var a := ProcessOrder(cfg, w, id, visit.fetched.value, visit.plan);
      ProcessOrderSound(cfg, w, id, visit.fetched.value, visit.plan);
      RowsSurvive(w, a.odoo);
    }
  }

  lemma DeathSound(cfg: Config, w: World, id: int, visit: Visit)
    requires OrdersSound(w)
    ensures OrdersSound(DieInOrder(cfg, w, id, visit))
    ensures NoDuplicatePartners(w.odoo, DieInOrder(cfg, w, id, visit).odoo)
  {
    SamePartners(w.odoo, w.odoo);
    if !IsSynced(w.working, id) && visit.fetched.Some? {
      ProcessOrderSound(cfg, w, id, visit.fetched.value, visit.plan);
      RowsSurvive(w, DieInOrder(cfg, w, id, visit).odoo);
    }
  }

  lemma MovedRowKeepsSound(w: World, id: int, status: OrderStatus)
    requires OrdersSound(w) && id in w.working.orders && !status.Synced?
    ensures OrdersSound(Commit(w.(working := WithRow(w.working, id, w.working.orders[id].(status := status)))))
  {
  }

  lemma CancelSaleKeeps(odoo: Odoo, sale: Id, call: Call)
    requires WellFormed(odoo)
    ensures SalesKept(odoo, CancelSale(odoo, sale, call)) && WellFormed(CancelSale(odoo, sale, call))
  {
  }

  lemma CancelSound(w: World, id: int, call: Call)
    requires OrdersSound(w)
    ensures OrdersSound(CancelOrder(w, id, call))
    ensures NoDuplicatePartners(w.odoo, CancelOrder(w, id, call).odoo)
  {
    var after := CancelOrder(w, id, call).odoo;
    SamePartners(w.odoo, after);
    if id in w.working.orders {
      if w.working.orders[id].odooOrder.Some? {
        CancelSaleKeeps(w.odoo, w.working.orders[id].odooOrder.value, call);
        RowsSurvive(w, after);
      }
      MovedRowKeepsSound(w.(odoo := after), id, OrderStatus.Cancelled);
    }
  }

  // ---------- the sale order account ----------

  function Bit(b: bool): nat {
    if b then 1 else 0
  }

  /** The attempt created a sale order in Odoo and then failed, so that no row names it. */
  function Orphans(cfg: Config, w: World, id: int, visit: Visit): nat {
    if IsSynced(w.working, id) || visit.fetched.None? then 0
    else
      var a := ProcessOrder(cfg, w, id, visit.fetched.value, visit.plan);
      Bit(a.made.Some? && a.got.Raised?)
  }

  /** The process died after it created a sale order in Odoo. */
  function DeathOrphans(cfg: Config, w: World, id: int, visit: Visit): nat {
    if IsSynced(w.working, id) || visit.fetched.None? then 0
    else Bit(ProcessOrder(cfg, w, id, visit.fetched.value, visit.plan).made.Some?)
  }

  lemma CreatedBy(before: Odoo, after: Odoo, id: int, made: Option<Id>, other: int)
    requires Grows(before, after)
    requires forall s :: s in after.sales ==> s in before.sales || Some(s) == made
    requires made.Some? ==> made.value in Created(after, id) && made.value !in before.sales
    ensures |Created(after, other)| == |Created(before, other)| + Bit(made.Some? && id == other)
  {
    if made.Some? && id == other {
      assert Created(after, other) == Created(before, other) + {made.value};
    } else {
      assert Created(after, other) == Created(before, other);
    }
  }

  /** Every sale order ever made for a WooCommerce order is the one its synced row names, or an orphan. */
  lemma SyncOrderAccount(cfg: Config, w: World, id: int, visit: Visit, other: int)
    requires OrdersSound(w)
    ensures var after := SyncOrder(cfg, w, id, visit).world;
      |Created(after.odoo, other)| + Bit(IsSynced(w.committed, other))
      == |Created(w.odoo, other)| + Bit(IsSynced(after.committed, other)) + (if id == other then Orphans(cfg, w, id, visit) else 0)
  {
    if !IsSynced(w.working, id) && visit.fetched.Some? {
      var a := ProcessOrder(cfg, w, id, visit.fetched.value, visit.plan);
      ProcessOrderSound(cfg, w, id, visit.fetched.value, visit.plan);
      CreatedBy(w.odoo, a.odoo, id, a.made, other);
    }
  }

  lemma DeathAccount(cfg: Config, w: World, id: int, visit: Visit, other: int)
    requires OrdersSound(w)
    ensures var after := DieInOrder(cfg, w, id, visit);
      && IsSynced(after.committed, other) == IsSynced(w.committed, other)
      && |Created(after.odoo, other)| == |Created(w.odoo, other)| + if id == other then DeathOrphans(cfg, w, id, visit) else 0
  {
    if !IsSynced(w.working, id) && visit.fetched.Some? {
      var a := ProcessOrder(cfg, w, id, visit.fetched.value, visit.plan);
      ProcessOrderSound(cfg, w, id, visit.fetched.value, visit.plan);
      CreatedBy(w.odoo, a.odoo, id, a.made, other);
    }
  }

  lemma CancelAccount(w: World, id: int, call: Call, other: int)
    requires OrdersSound(w)
    ensures var after := CancelOrder(w, id, call);
      |Created(after.odoo, other)| == |Created(w.odoo, other)|
  {
    CreatedBy(w.odoo, CancelOrder(w, id, call).odoo, id, None, other);
  }

  // ---------- stale fields ----------

  /** A row first written by a failure keeps its empty number and total, and a re-synced row its older invoice. */
  lemma ResyncKeepsStaleFields(cfg: Config, w: World, id: int, visit: Visit)
    requires OrdersSound(w) && id in w.committed.orders && !IsSynced(w.committed, id)
    ensures var after := SyncOrder(cfg, w, id, visit).world.committed.orders;
      && id in after
      && after[id].number == w.committed.orders[id].number
      && after[id].total == w.committed.orders[id].total
      && (visit.plan.invoice.Raised? || visit.plan.invoice.value.None? ==> after[id].invoice == w.committed.orders[id].invoice)
  {
  }
}
