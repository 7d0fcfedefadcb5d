/** The repositories of customer, product and variant rows, over one session.  Every writing method flushes. */
module MappingRepositories {
  import opened Outcomes
  import opened Tables
  import opened MappingRows
  import opened Sessions
  import Emails

  function WithProducts(db: Database, rows: map<nat, ProductRow>): Database {
    db.(mappings := db.mappings.(products := rows))
  }

  function WithVariants(db: Database, rows: map<nat, VariantRow>): Database {
    db.(mappings := db.mappings.(variants := rows))
  }

  class CustomerMappingRepository {
    const db: Session

    constructor (db: Session)
      ensures this.db == db
    {
      this.db := db;
    }

    /** Rows are written and looked up under the normalised address. */
    method Create(email: string, partner: Id)
      modifies db`working
      ensures db.working == old(db.working).(customers := old(db.working).customers[Emails.Normalise(email) := partner])
    {
      db.working := db.working.(customers := db.working.customers[Emails.Normalise(email) := partner]);
    }

    method GetByEmail(email: string) returns (partner: Option<Id>)
      ensures partner.Some? <==> Emails.Normalise(email) in db.working.customers
      ensures partner.Some? ==> partner.value == db.working.customers[Emails.Normalise(email)]
    {
      var key := Emails.Normalise(email);
      return if key in db.working.customers then Some(db.working.customers[key]) else None;
    }
  }

  class ProductMappingRepository {
    const db: Session

    constructor (db: Session)
      ensures this.db == db
    {
      this.db := db;
    }

    method GetByOdooId(odoo: Id) returns (row: Option<nat>)
      ensures row == ProductByOdoo(db.working.mappings.products, odoo)
    {
      var rows := db.working.mappings.products;
      return First(set i | i in rows && rows[i].odoo == odoo);
    }

    method GetBySku(sku: string) returns (row: Option<nat>)
      ensures row == ProductBySku(db.working.mappings.products, sku)
    {
      var rows := db.working.mappings.products;
      return First(set i | i in rows && rows[i].sku == sku);
    }

    method Create(row: ProductRow)
      modifies db`working, db`nextRow
      ensures db.nextRow == old(db.nextRow) + 1
      ensures db.working == WithProducts(old(db.working), old(db.working).mappings.products[old(db.nextRow) := row])
    {
      db.working := WithProducts(db.working, db.working.mappings.products[db.nextRow := row]);
      db.nextRow := db.nextRow + 1;
    }

    /** Arguments that are None leave their column alone. */
    method Update(i: nat, woo: Option<Id>, status: Option<SyncStatus>, kind: Option<ProductKind>)
      requires i in db.working.mappings.products
      modifies db`working
      ensures var row := old(db.working).mappings.products[i];
        var updated := row.(woo := if woo.Some? then woo else row.woo,
                            status := if status.Some? then status.value else row.status,
                            kind := if kind.Some? then kind.value else row.kind);
        db.working == WithProducts(old(db.working), old(db.working).mappings.products[i := updated])
    {
      var row := db.working.mappings.products[i];
      if woo.Some? {
        row := row.(woo := woo);
      }
      if status.Some? {
        row := row.(status := status.value);
      }
      if kind.Some? {
        row := row.(kind := kind.value);
      }
      db.working := WithProducts(db.working, db.working.mappings.products[i := row]);
    }

    /** The caller's assignments to the SKU and the Odoo id of a row, as the next flush writes them. */
    method Rekey(i: nat, sku: string, odoo: Id)
      requires i in db.working.mappings.products
      modifies db`working
      ensures db.working == WithProducts(old(db.working),
        old(db.working).mappings.products[i := old(db.working).mappings.products[i].(sku := sku, odoo := odoo)])
    {
      var row := db.working.mappings.products[i].(sku := sku, odoo := odoo);
      db.working := WithProducts(db.working, db.working.mappings.products[i := row]);
    }

    /** The row goes, and the foreign key takes the rows of its variants with it. */
    method Delete(i: nat)
      modifies db`working
      ensures var before, after := old(db.working).mappings, db.working.mappings;
        && db.working == old(db.working).(mappings := after)
        && after.products == before.products - {i}
        && after.variants.Keys == (set j | j in before.variants && before.variants[j].parent != i)
        && (forall j :: j in after.variants ==> after.variants[j] == before.variants[j])
    {
      var m := db.working.mappings;
      db.working := db.working.(mappings := Mappings(
        m.products - {i},
        map j | j in m.variants && m.variants[j].parent != i :: m.variants[j]));
    }
  }

  class VariantMappingRepository {
    const db: Session

    constructor (db: Session)
      ensures this.db == db
    {
      this.db := db;
    }

    method GetByOdooId(odoo: Id) returns (row: Option<nat>)
      ensures row == VariantByOdoo(db.working.mappings.variants, odoo)
    {
      var rows := db.working.mappings.variants;
      return First(set i | i in rows && rows[i].odoo == odoo);
    }

    method GetBySku(sku: string) returns (row: Option<nat>)
      ensures row == VariantBySku(db.working.mappings.variants, sku)
    {
      var rows := db.working.mappings.variants;
      return First(set i | i in rows && rows[i].sku == sku);
    }

    method Create(row: VariantRow)
      modifies db`working, db`nextVariantRow
      ensures db.nextVariantRow == old(db.nextVariantRow) + 1
      ensures db.working == WithVariants(old(db.working), old(db.working).mappings.variants[old(db.nextVariantRow) := row])
    {
      db.working := WithVariants(db.working, db.working.mappings.variants[db.nextVariantRow := row]);
      db.nextVariantRow := db.nextVariantRow + 1;
    }

    /** mark_synced: neither the SKU nor the Odoo id of the row is refreshed. */
    method MarkSynced(i: nat, woo: Id)
      requires i in db.working.mappings.variants
      modifies db`working
      ensures db.working == WithVariants(old(db.working),
        old(db.working).mappings.variants[i := old(db.working).mappings.variants[i].(woo := Some(woo), status := SyncStatus.Synced)])
    {
      var row := db.working.mappings.variants[i].(woo := Some(woo), status := SyncStatus.Synced);
      db.working := WithVariants(db.working, db.working.mappings.variants[i := row]);
    }

    /** list_by_product, ordered by id. */
    method ListByProduct(parent: nat) returns (rows: seq<nat>)
      ensures rows == InOrder(VariantsUnder(db.working.mappings.variants, parent))
    {
      var variants := db.working.mappings.variants;
      return InOrder(set j | j in variants && variants[j].parent == parent);
    }
  }
}
