/** OrderSyncService, step by step. */
module OrderService {
  import opened Outcomes
  import opened Tables
  import opened OdooApi
  import opened Sessions
  import opened WooShop
  import opened Worlds
  import opened Repositories
  import opened CustomerService
  import OrderLines
  import S = OrderSync

  datatype OrderResult = OrderSkipped | OrderCreated(sale: S.Sale) | OrderCancelled | OrderRefunded | OrderFailed

  class OrderSyncService {
    const cfg: Config
    const db: Session
    const odoo: OdooStore
    const shop: WooStore
    const orderRepo: OrderMappingRepository
    const jobRepo: FailedJobRepository
    const customerSync: CustomerSyncService

    ghost predicate Wired() {
      orderRepo.db == db && jobRepo.db == db && customerSync.Wired() && customerSync.db == db && customerSync.odoo == odoo
    }

    constructor (cfg: Config, db: Session, odoo: OdooStore, shop: WooStore)
      ensures Wired() && this.cfg == cfg && this.db == db && this.odoo == odoo && this.shop == shop
    {
      this.cfg, this.db, this.odoo, this.shop := cfg, db, odoo, shop;
      orderRepo := new OrderMappingRepository(db);
      jobRepo := new FailedJobRepository(db);
      customerSync := new CustomerSyncService(db, odoo);
    }

    ghost function View(): World
      reads db, odoo, shop
    {
      WorldOf(db, odoo, shop)
    }

    method GetByWooId(id: int) returns (row: Option<OrderRow>)
      ensures row == S.RowOf(db.working, id)
    {
      return if id in db.working.orders then Some(db.working.orders[id]) else None;
    }

    /** Steps 3 to 6: create, confirm, invoice, post. */
    method PlaceSale(id: int, ids: PartnerIds, lines: seq<OrderLine>, plan: S.OrderPlan) returns (r: Result<S.Sale>)
      modifies odoo
      ensures var a := S.PlaceSale(old(odoo.View()), db.working.customers, id, ids, lines, plan);
        odoo.View() == a.odoo && r == a.got
    {
      var order := odoo.NewSale(SaleOrder(id, ids, lines, false, false), plan.create);
      if order.Raised? {
        return Raised(order.fault);
      }
      odoo.ActionConfirm(order.value, plan.confirm);
      if !plan.confirm.Ok? {
        return Raised(plan.confirm.fault);
      }
      var invoice: Option<Id> := None;
      match plan.invoice {
        case Done(answer) => invoice := answer;
        case Raised(Api) =>
        case Raised(Other) => return Raised(Other);
      }
      if invoice.Some? && plan.post == Some(Other) {
        return Raised(Other);
      }
      return Done(S.Sale(order.value, invoice));
    }

    /** Steps 1 to 6 of _process_order, up to the first exception. */
    method Attempt(id: int, data: S.OrderData, plan: S.OrderPlan) returns (r: Result<S.Sale>)
      requires Wired()
      modifies db`working, odoo
      ensures var a := S.ProcessOrder(cfg, old(View()), id, data, plan);
        && odoo.View() == a.odoo && r == a.got
        && db.working == old(db.working).(customers := a.customers)
    {
      var look := S.LookupOf(cfg, db.working.mappings, plan);
      var partners := customerSync.GetOrCreatePartner(data.email, plan.customer);
      if partners.Raised? {
        return Raised(partners.fault);
      }
      var lines := OrderLines.BuildOrderLines(look, data.items);
      if lines.Raised? {
        return Raised(lines.fault);
      }
      if lines.value == [] {
        return Raised(Other);
      }
      r := PlaceSale(id, partners.value, lines.value, plan);
    }

    /** The try block of _process_order with its rollback, and steps 7 and 8. */
    method ProcessOrder(id: int, data: S.OrderData, existing: Option<OrderRow>, plan: S.OrderPlan)
        returns (r: Result<S.Sale>)
      requires Wired() && existing == S.RowOf(db.working, id)
      modifies db`working, db`committed, odoo
      ensures var a := S.ProcessOrder(cfg, old(View()), id, data, plan);
        && r == a.got
        && (a.got.Raised? ==> View() == Rollback(old(View())).(odoo := a.odoo))
        && (a.got.Done? ==>
              View() == Commit(old(View()).(
                working := S.WithRow(old(db.working), id, S.SyncedRow(existing, data, a.got.value)).(customers := a.customers),
                odoo := a.odoo)))
    {
      r := Attempt(id, data, plan);
      match r {
        case Raised(_) =>
          db.Rollback();
        case Done(sale) =>
          if existing.Some? {
            orderRepo.Update(id, Some(sale.order), sale.invoice, Some(OrderStatus.Synced));
          } else {
            orderRepo.Create(id, OrderRow(Some(sale.order), Some(data.number), sale.invoice, Some(data.total), OrderStatus.Synced));
          }
          db.Commit();
      }
    }

    method HandleOrderError(id: int, now: int)
      requires Wired()
      modifies db
      ensures View() == S.HandleOrderError(cfg, old(View()), id, now)
    {
      jobRepo.Create(OrderWork(id), cfg.maxRetries, cfg.delays, now);
      var existing := GetByWooId(id);
      if existing.Some? {
        orderRepo.Update(id, None, None, Some(OrderStatus.Failed));
      } else {
        orderRepo.Create(id, OrderRow(None, None, None, None, OrderStatus.Failed));
      }
      db.Commit();
    }

    method SyncOrder(id: int, visit: S.Visit) returns (r: OrderResult)
      requires Wired()
      modifies db, odoo
      ensures var x := S.SyncOrder(cfg, old(View()), id, visit);
        View() == x.world && (r.OrderFailed? <==> x.raised) && (r.OrderSkipped? <==> S.IsSynced(old(db.working), id))
    {
      var existing := GetByWooId(id);
      if existing.Some? && existing.value.status.Synced? {
        return OrderSkipped;
      }
      if visit.fetched.None? {
        HandleOrderError(id, visit.now);
        return OrderFailed;
      }
      var sale := ProcessOrder(id, visit.fetched.value, existing, visit.plan);
      if sale.Raised? {
        HandleOrderError(id, visit.now);
        return OrderFailed;
      }
      return OrderCreated(sale.value);
    }

    method SyncOrderFromPayload(id: int, visit: S.Visit) returns (r: OrderResult)
      requires Wired()
      modifies db, odoo
      ensures var x := S.SyncOrderFromPayload(cfg, old(View()), id, visit);
        View() == x.world && (r.OrderFailed? <==> x.raised)
    {
      if id == 0 {
        return OrderFailed;
      }
      r := SyncOrder(id, visit);
    }

    /** None stands for an exception that leaves the handler; its session is closed without a commit. */
    method HandleOrderCancelled(id: int, call: Call) returns (r: Option<OrderResult>)
      requires Wired()
      modifies db`working, db`committed, odoo
      ensures View() == S.CancelOrder(old(View()), id, call)
      ensures r == Some(OrderSkipped) <==> id !in old(db.working).orders
    {
      var existing := GetByWooId(id);
      if existing.None? {
        return Some(OrderSkipped);
      }
      if existing.value.odooOrder.Some? {
        odoo.ActionCancel(existing.value.odooOrder.value, call);
        if !call.Ok? && call.fault.Other? {
          return None;
        }
      }
      orderRepo.Update(id, None, None, Some(OrderStatus.Cancelled));
      db.Commit();
      return Some(OrderCancelled);
    }

    method HandleOrderRefunded(id: int) returns (r: OrderResult)
      requires Wired()
      modifies db`working, db`committed
      ensures View() == S.RefundOrder(old(View()), id)
      ensures r.OrderSkipped? <==> id !in old(db.working).orders
    {
      var existing := GetByWooId(id);
      if existing.None? {
        return OrderSkipped;
      }
      orderRepo.Update(id, None, None, Some(OrderStatus.Refunded));
      db.Commit();
      return OrderRefunded;
    }
  }
}
