/** The repositories of order rows and failed jobs, over one session. */
module Repositories {
  import opened Outcomes
  import opened Tables
  import opened FailedJobs
  import opened Sessions
  import opened Worlds
  import OdooApi
  import WooShop
  import OrderSync

  /** The world as one session and the two remote stores make it up. */
  ghost function WorldOf(db: Session, odoo: OdooApi.OdooStore, shop: WooShop.WooStore): World
    reads db, odoo, shop
  {
    World(db.committed, db.working, db.nextJob, db.nextRow, db.nextVariantRow, odoo.View(), shop.View())
  }

  class FailedJobRepository {
    const db: Session

    constructor (db: Session)
      ensures this.db == db
    {
      this.db := db;
    }

    method Create(work: Work, maxRetries: nat, delays: seq<int>, now: int)
      modifies db`working, db`nextJob
      ensures db.nextJob == old(db.nextJob) + 1
      ensures db.working == old(db.working).(jobs := old(db.working).jobs[old(db.nextJob) := NewJob(work, maxRetries, delays, now)])
    {
      var schedule := if delays == [] then DEFAULT_RETRY_DELAYS else delays;
      var job := Job(work, 0, maxRetries, Some(now + schedule[0]), JobStatus.Pending, now, None);
      db.working := db.working.(jobs := db.working.jobs[db.nextJob := job]);
      db.nextJob := db.nextJob + 1;
    }

    method IncrementRetry(id: nat, delays: seq<int>, now: int)
      requires id in db.working.jobs
      modifies db`working
      ensures db.working == old(db.working).(jobs := old(db.working).jobs[id := Advanced(old(db.working).jobs[id], delays, now)])
    {
      var schedule := if delays == [] then DEFAULT_RETRY_DELAYS else delays;
      var job := db.working.jobs[id];
      job := job.(retryCount := job.retryCount + 1);
      if job.retryCount >= job.maxRetries {
        job := job.(status := DeadLetter, nextRetryAt := None, resolvedAt := Some(now));
      } else {
        var k := if job.retryCount < |schedule| - 1 then job.retryCount else |schedule| - 1;
        job := job.(nextRetryAt := Some(now + schedule[k]), status := JobStatus.Pending);
      }
      db.working := db.working.(jobs := db.working.jobs[id := job]);
    }

    method MarkResolved(id: nat, now: int)
      requires id in db.working.jobs
      modifies db`working
      ensures db.working == old(db.working).(jobs := old(db.working).jobs[id := Closed(old(db.working).jobs[id], now)])
    {
      var job := db.working.jobs[id].(status := Resolved, resolvedAt := Some(now), nextRetryAt := None);
      db.working := db.working.(jobs := db.working.jobs[id := job]);
    }
  }

  class OrderMappingRepository {
    const db: Session

    constructor (db: Session)
      ensures this.db == db
    {
      this.db := db;
    }

    method Create(id: int, row: OrderRow)
      modifies db`working
      ensures db.working == OrderSync.WithRow(old(db.working), id, row)
    {
      db.working := db.working.(orders := db.working.orders[id := row]);
    }

    /** Arguments that are None leave their column alone. */
    method Update(id: int, order: Option<Id>, invoice: Option<Id>, status: Option<OrderStatus>)
      requires id in db.working.orders
      modifies db`working
      ensures var row := old(db.working).orders[id];
        db.working == OrderSync.WithRow(old(db.working), id,
          row.(odooOrder := if order.Some? then order else row.odooOrder,
               invoice := if invoice.Some? then invoice else row.invoice,
               status := if status.Some? then status.value else row.status))
    {
      var row := db.working.orders[id];
      if order.Some? {
        row := row.(odooOrder := order);
      }
      if invoice.Some? {
        row := row.(invoice := invoice);
      }
      if status.Some? {
        row := row.(status := status.value);
      }
      db.working := db.working.(orders := db.working.orders[id := row]);
    }
  }
}
