/** The database session: rows are flushed into working and become durable with Commit.
    Autoflush is off, but every repository method flushes, so working is what queries read. */
module Sessions {
  import opened Tables

  class Session {
    var committed: Database
    var working: Database
    // identifiers drawn from database sequences are never handed out twice, not even after a rollback
    var nextJob: nat
    var nextRow: nat
    var nextVariantRow: nat

    constructor (start: Database, nextJob: nat, nextRow: nat, nextVariantRow: nat)
      ensures committed == working == start
      ensures this.nextJob == nextJob && this.nextRow == nextRow && this.nextVariantRow == nextVariantRow
    {
      committed, working := start, start;
      this.nextJob, this.nextRow, this.nextVariantRow := nextJob, nextRow, nextVariantRow;
    }

    method Commit()
      modifies this`committed
      ensures committed == working
    {
      committed := working;
    }

    method Rollback()
      modifies this`working
      ensures working == committed
    {
      working := committed;
    }
  }
}
