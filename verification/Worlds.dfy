/** The whole system between two steps: the database session, Odoo and the WooCommerce shop. */
module Worlds {
  import opened Tables
  import opened FailedJobs

  /** Settings, and the part of Odoo the services only read: its templates and products in search order. */
  datatype Config = Config(
    maxRetries: nat,
    delays: seq<int>,
    templates: seq<OdooProduct>,
    variants: seq<OdooVariant>)

  datatype World = World(
    committed: Database,
    working: Database,
    nextJob: nat,
    nextRow: nat,
    nextVariantRow: nat,
    odoo: Odoo,
    woo: Woo)

  const EMPTY_DATABASE := Database(map[], map[], map[], Mappings(map[], map[]))

  /** The platform before its first event, connected to an Odoo and a shop that may already be in use. */
  function NewPlatform(odoo: Odoo, woo: Woo): World {
    World(EMPTY_DATABASE, EMPTY_DATABASE, 0, 0, 0, odoo, woo)
  }

  function Commit(w: World): World {
    w.(committed := w.working)
  }

  function Rollback(w: World): World {
    w.(working := w.committed)
  }

  /** FailedJobRepository.create with the configured number of retries and delays. */
  function Enqueue(cfg: Config, w: World, work: Work, now: int): World {
    w.(working := w.working.(jobs := w.working.jobs[w.nextJob := NewJob(work, cfg.maxRetries, cfg.delays, now)]),
       nextJob := w.nextJob + 1)
  }

  /** The first operation by which a service call ended the transaction it was given. */
  datatype Ending = Leaves | Commits | RollsBack

  /** What a service call did; raised says that a retry of it counts as failed. */
  datatype Executed = Executed(world: World, raised: bool, ending: Ending)
}
