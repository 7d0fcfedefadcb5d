/** InventorySyncService: stock quantities from Odoo to WooCommerce. */
module Inventory {
  import opened Outcomes
  import opened Tables
  import opened MappingRows
  import opened Sessions
  import opened MappingRepositories
  import V = VariantSync
  import P = ProductSync
  import opened Runs
  import opened Worlds
  import CatalogueRuns
  import R = RetryQueue

  /** What a stock quantity belongs to.  A variation is addressed under its product. */
  datatype Slot = OfProduct(product: Id) | OfVariation(product: Id, variation: Id)

  datatype Write = Write(slot: Slot, quantity: nat)

  /** The calls made for one quantity: reading it from Odoo, and writing it to the shop. */
  datatype StockPlan = StockPlan(search: Option<Fault>, write: Call)

  predicate IsSmooth(plan: StockPlan) {
    plan.search.None? && plan.write.Ok?
  }

  /** int() drops the fraction, towards zero. */
  function Truncated(q: real): int {
    if q >= 0.0 then q.Floor else -((-q).Floor)
  }

  /** The whole units on hand, and none when the stock is negative. */
  function StockOf(q: real): (n: nat)
    ensures q >= 0.0 ==> n as real <= q < n as real + 1.0
    ensures q < 0.0 ==> n == 0
  {
    var units := Truncated(q);
    if units < 0 then 0 else units
  }

  /** The stock that the shop keeps for its products and variations. */
  class StockStore {
    var stock: map<Slot, int>

    constructor (start: map<Slot, int>)
      ensures stock == start
    {
      stock := start;
    }

    /** update_stock and update_variation_stock; a slot the shop does not have is answered 404. */
    method Update(slot: Slot, quantity: int, call: Call) returns (fault: Option<Fault>)
      modifies this
      ensures stock == if slot in old(stock) && call.TookEffect() then old(stock)[slot := quantity] else old(stock)
      ensures fault.None? <==> slot in old(stock) && call.Ok?
    {
      if slot in stock && call.TookEffect() {
        stock := stock[slot := quantity];
      }
      return if !call.Ok? then Some(call.fault) else if slot in stock then None else Some(Api);
    }
  }

  function VariantWithId(all: seq<OdooVariant>, id: Id): Option<OdooVariant> {
    if all == [] then None
    else if all[0].id == id && all[0].active then Some(all[0])
    else VariantWithId(all[1..], id)
  }

  /** The k-th record is what Odoo answers to a search for an active product with this id. */
  ghost predicate IsAnswer(all: seq<OdooVariant>, id: Id, k: nat) {
    && k < |all| && all[k].id == id && all[k].active
    && forall j :: 0 <= j < k ==> !(all[j].id == id && all[j].active)
  }

  /** The search finds the active product with the id, and nothing only if there is none. */
  lemma {:induction false} VariantWithIdMeans(all: seq<OdooVariant>, id: Id)
    ensures match VariantWithId(all, id)
      case Some(v) => exists k: nat :: IsAnswer(all, id, k) && all[k] == v
      case None => forall k :: 0 <= k < |all| ==> !(all[k].id == id && all[k].active)
  {
    if all != [] && !(all[0].id == id && all[0].active) {
      VariantWithIdMeans(all[1..], id);
      match VariantWithId(all, id) {
        case Some(v) =>
          var k: nat :| IsAnswer(all[1..], id, k) && all[1..][k] == v;
          forall j | 0 <= j < k + 1 ensures !(all[j].id == id && all[j].active) {
            assert j > 0 ==> all[1..][j - 1] == all[j];
          }
          assert IsAnswer(all, id, k + 1) && all[k + 1] == v;
        case None =>
          forall k | 0 <= k < |all| ensures !(all[k].id == id && all[k].active) {
            assert k > 0 ==> all[1..][k - 1] == all[k];
          }
      }
    } else if all != [] {
      assert IsAnswer(all, id, 0);
    }
  }

  /** The template has an active variant. */
  ghost predicate HasActive(all: seq<OdooVariant>, template: Id) {
    exists v :: v in all && v.template == template && v.active
  }

  /** Odoo has an active product with this id. */
  ghost predicate IsActive(all: seq<OdooVariant>, id: Id) {
    exists v :: v in all && v.id == id && v.active
  }

  /** A quantity that the mapping row i owes to the shop: a simple product that of the first active variant of its template,
      a variable one that of each variant that it has a variation for. */
  ghost predicate IsDue(all: seq<OdooVariant>, m: Mappings, i: nat, w: Write) {
    && i in m.products && m.products[i].woo.Some?
    && var x := m.products[i].woo.value;
       match m.products[i].kind
       case Simple =>
         exists k: nat :: V.IsFirstActive(all, m.products[i].odoo, k) && w == Write(OfProduct(x), StockOf(all[k].quantity))
       case Variable => exists j :: IsDueFor(all, m, i, x, j, w)
  }

  /** The variant row j owes the quantity w to the product x of its parent i. */
  ghost predicate IsDueFor(all: seq<OdooVariant>, m: Mappings, i: nat, x: Id, j: nat, w: Write) {
    && j in m.variants && m.variants[j].parent == i && m.variants[j].woo.Some?
    && exists k: nat :: IsAnswer(all, m.variants[j].odoo, k)
         && w == Write(OfVariation(x, m.variants[j].woo.value), StockOf(all[k].quantity))
  }

  /** The unique columns of the two mapping tables. */
  ghost predicate UniqueKeys(m: Mappings) {
    P.ProductKeys(m.products) && V.VariantKeys(m.variants)
  }

  /** From before to after, only quantities that row i owes were written. */
  ghost predicate OnlyDue(all: seq<OdooVariant>, m: Mappings, i: nat, before: map<Slot, int>, after: map<Slot, int>) {
    && after.Keys == before.Keys
    && forall slot :: slot in before ==>
         after[slot] == before[slot] || exists w :: IsDue(all, m, i, w) && w.slot == slot && after[slot] == w.quantity
  }

  ghost predicate Holds(stock: map<Slot, int>, w: Write) {
    w.slot in stock && stock[w.slot] == w.quantity
  }

  /** Everything row i owes is in the shop. */
  ghost predicate Stocked(all: seq<OdooVariant>, m: Mappings, i: nat, stock: map<Slot, int>) {
    forall w :: IsDue(all, m, i, w) ==> Holds(stock, w)
  }

  /** What the variant row j owes is in the shop. */
  ghost predicate HoldsFor(all: seq<OdooVariant>, m: Mappings, i: nat, j: nat, stock: map<Slot, int>) {
    forall x, w :: i in m.products && m.products[i].woo == Some(x) && IsDueFor(all, m, i, x, j, w) ==> Holds(stock, w)
  }

  /** The slot of a variant row: its variation, under the product of the row it belongs to. */
  function SlotOf(m: Mappings, i: nat, j: nat): Option<Slot> {
    if i in m.products && m.products[i].woo.Some? && j in m.variants && m.variants[j].woo.Some? then
      Some(OfVariation(m.products[i].woo.value, m.variants[j].woo.value))
    else None
  }

  /** Only slots of these variant rows were written. */
  ghost predicate OnlyOf(m: Mappings, i: nat, rows: seq<nat>, before: map<Slot, int>, after: map<Slot, int>) {
    && after.Keys == before.Keys
    && forall slot :: slot in before && after[slot] != before[slot] ==> exists j :: j in rows && SlotOf(m, i, j) == Some(slot)
  }

  /** The rows before j hold what they owe, and those after j were not come to. */
  ghost predicate EndsAt(all: seq<OdooVariant>, m: Mappings, i: nat, j: nat, before: map<Slot, int>, after: map<Slot, int>) {
    && j in VariantsUnder(m.variants, i)
    && (forall n :: n in VariantsUnder(m.variants, i) && n < j ==> HoldsFor(all, m, i, n, after))
    && after.Keys == before.Keys
    && forall slot :: slot in before && after[slot] != before[slot] ==>
         exists n :: n in VariantsUnder(m.variants, i) && n <= j && SlotOf(m, i, n) == Some(slot)
  }

  lemma OnlyDueTwice(all: seq<OdooVariant>, m: Mappings, i: nat, a: map<Slot, int>, b: map<Slot, int>, c: map<Slot, int>)
    requires OnlyDue(all, m, i, a, b) && OnlyDue(all, m, i, b, c)
    ensures OnlyDue(all, m, i, a, c)
  {
    forall slot | slot in a && c[slot] != a[slot]
      ensures exists w :: IsDue(all, m, i, w) && w.slot == slot && c[slot] == w.quantity {
      assert slot in b;
    }
  }

  /** After the first k of these rows: only what they owe was written, into their slots, and all of it is there. */
  ghost predicate Reached(all: seq<OdooVariant>, m: Mappings, i: nat, rows: seq<nat>, k: nat, before: map<Slot, int>,
      after: map<Slot, int>)
    requires k <= |rows|
  {
    && OnlyDue(all, m, i, before, after)
    && OnlyOf(m, i, rows[..k], before, after)
    && (UniqueKeys(m) ==> forall n :: 0 <= n < k ==> HoldsFor(all, m, i, rows[n], after))
  }

  /** The row that comes next leaves what the others owe in place. */
  lemma ReachedMore(all: seq<OdooVariant>, m: Mappings, i: nat, rows: seq<nat>, k: nat, a: map<Slot, int>, b: map<Slot, int>,
      c: map<Slot, int>)
    requires k < |rows| && (forall n :: 0 <= n < k ==> rows[n] != rows[k])
    requires Reached(all, m, i, rows, k, a, b)
    requires OnlyDue(all, m, i, b, c) && OnlyOf(m, i, [rows[k]], b, c)
    requires UniqueKeys(m) ==> forall j :: j != rows[k] && HoldsFor(all, m, i, j, b) ==> HoldsFor(all, m, i, j, c)
    ensures OnlyDue(all, m, i, a, c) && OnlyOf(m, i, rows[..k + 1], a, c)
    ensures UniqueKeys(m) ==> forall n :: 0 <= n < k ==> HoldsFor(all, m, i, rows[n], c)
  {
    OnlyDueTwice(all, m, i, a, b, c);
    forall slot | slot in a && c[slot] != a[slot] ensures exists j :: j in rows[..k + 1] && SlotOf(m, i, j) == Some(slot) {
      if b[slot] != a[slot] {
        var j :| j in rows[..k] && SlotOf(m, i, j) == Some(slot);
        assert j in rows[..k + 1];
      } else {
        assert rows[..k + 1][k] == rows[k];
      }
    }
  }

  lemma EveryRowHolds(all: seq<OdooVariant>, m: Mappings, i: nat, rows: seq<nat>, stock: map<Slot, int>)
    requires i in m.products && m.products[i].kind.Variable?
    requires forall j :: j in rows <==> j in VariantsUnder(m.variants, i)
    requires forall n :: 0 <= n < |rows| ==> HoldsFor(all, m, i, rows[n], stock)
    ensures Stocked(all, m, i, stock)
  {
    forall w | IsDue(all, m, i, w) ensures Holds(stock, w) {
      var j :| IsDueFor(all, m, i, m.products[i].woo.value, j, w);
      assert j in VariantsUnder(m.variants, i);
      var n :| 0 <= n < |rows| && rows[n] == j;
    }
  }

  lemma StoppedAt(all: seq<OdooVariant>, m: Mappings, i: nat, rows: seq<nat>, k: nat, before: map<Slot, int>,
      after: map<Slot, int>)
    requires k < |rows| && (forall j :: j in rows <==> j in VariantsUnder(m.variants, i))
    requires forall a, b :: 0 <= a < b < |rows| ==> rows[a] < rows[b]
    requires forall n :: 0 <= n < k ==> HoldsFor(all, m, i, rows[n], after)
    requires OnlyOf(m, i, rows[..k + 1], before, after)
    ensures EndsAt(all, m, i, rows[k], before, after)
  {
    forall j | j in VariantsUnder(m.variants, i) && j < rows[k] ensures HoldsFor(all, m, i, j, after) {
      var n :| 0 <= n < |rows| && rows[n] == j;
      assert n < k;
    }
    forall slot | slot in before && after[slot] != before[slot]
      ensures exists n :: n in VariantsUnder(m.variants, i) && n <= rows[k] && SlotOf(m, i, n) == Some(slot) {
      var j :| j in rows[..k + 1] && SlotOf(m, i, j) == Some(slot);
      var n :| 0 <= n <= k && rows[n] == j;
      assert n < k ==> rows[n] < rows[k];
      assert j in VariantsUnder(m.variants, i);
    }
  }

  /** The shop has a slot for everything row i owes. */
  ghost predicate InShop(all: seq<OdooVariant>, m: Mappings, i: nat, stock: map<Slot, int>) {
    forall w :: IsDue(all, m, i, w) ==> w.slot in stock
  }

  /** And the row is linked. */
  ghost predicate IsStockable(all: seq<OdooVariant>, m: Mappings, i: nat, stock: map<Slot, int>) {
    i in m.products && m.products[i].woo.Some? && InShop(all, m, i, stock)
  }

  /** The shop has a slot for everything that a linked row with this SKU owes. */
  ghost predicate CanBeStocked(all: seq<OdooVariant>, m: Mappings, sku: string, stock: map<Slot, int>) {
    forall i :: HasSku(m, i, sku) && m.products[i].woo.Some? ==> InShop(all, m, i, stock)
  }

  /** An entry of the error list: the listing itself failed, or the product with this SKU did. */
  datatype InventoryError = ListingFailed(fault: Fault) | ProductFailed(sku: string)

  datatype InventoryResult = InventoryResult(total: nat, updated: nat, failed: nat, errors: seq<InventoryError>)

  ghost predicate StockedOrFailed(all: seq<OdooVariant>, m: Mappings, i: nat, errors: seq<InventoryError>,
      stock: map<Slot, int>) {
    i in m.products && (ProductFailed(m.products[i].sku) in errors || Stocked(all, m, i, stock))
  }

  /** The error names a SYNCED row. */
  ghost predicate IsOfSynced(m: Mappings, e: InventoryError) {
    exists i :: IsSynced(m, i) && e == ProductFailed(m.products[i].sku)
  }

  /** Every SYNCED row is linked, and the shop has a slot for everything it owes. */
  ghost predicate EveryInShop(all: seq<OdooVariant>, m: Mappings, stock: map<Slot, int>) {
    forall i :: IsSynced(m, i) ==> m.products[i].woo.Some? && InShop(all, m, i, stock)
  }

  class InventorySyncService {
    const all: seq<OdooVariant>
    const db: Session
    const store: StockStore
    const productRepo: ProductMappingRepository
    const variantRepo: VariantMappingRepository

    ghost predicate Wired() {
      productRepo.db == db && variantRepo.db == db
    }

    constructor (all: seq<OdooVariant>, db: Session, store: StockStore)
      ensures Wired() && this.all == all && this.db == db && this.store == store
    {
      this.all, this.db, this.store := all, db, store;
      productRepo := new ProductMappingRepository(db);
      variantRepo := new VariantMappingRepository(db);
    }

    method SyncSimpleProductStock(i: nat, plan: StockPlan) returns (fault: Option<Fault>)
      requires i in db.working.mappings.products && db.working.mappings.products[i].kind.Simple?
      modifies store
      ensures OnlyDue(all, db.working.mappings, i, old(store.stock), store.stock)
      ensures fault.None? ==> Stocked(all, db.working.mappings, i, store.stock)
      ensures IsSmooth(plan) && IsStockable(all, db.working.mappings, i, old(store.stock)) ==> fault.None?
      ensures var row := db.working.mappings.products[i];
        fault.Some? <==>
          || plan.search.Some?
          || (HasActive(all, row.odoo)
              && (row.woo.None? || OfProduct(row.woo.value) !in old(store.stock) || !plan.write.Ok?))
    {
      var row := db.working.mappings.products[i];
      if plan.search.Some? {
        return plan.search;
      }
      var variants := V.ActiveVariants(all, row.odoo);
      V.ActiveVariantsAre(all, row.odoo);
      if variants == [] {
        assert forall k :: 0 <= k < |all| ==> all[k] in all;
        return None;
      }
      assert variants[0] in all;
      if row.woo.None? {
        return Some(Api);
      }
      ghost var due := Write(OfProduct(row.woo.value), StockOf(variants[0].quantity));
      ghost var first := V.FirstActiveIsFirst(all, row.odoo);
      assert IsDue(all, db.working.mappings, i, due);
      fault := store.Update(OfProduct(row.woo.value), StockOf(variants[0].quantity), plan.write);
    }

    /** One turn of the loop below. */
    method SyncVariantStock(i: nat, j: nat, plan: StockPlan) returns (fault: Option<Fault>)
      requires var m := db.working.mappings;
        && i in m.products && m.products[i].kind.Variable?
        && j in m.variants && m.variants[j].parent == i
      modifies store
      ensures OnlyDue(all, db.working.mappings, i, old(store.stock), store.stock)
      ensures fault.None? ==> HoldsFor(all, db.working.mappings, i, j, store.stock)
      ensures var m := db.working.mappings;
        V.VariantKeys(m.variants) ==>
          forall n :: n != j && HoldsFor(all, m, i, n, old(store.stock)) ==> HoldsFor(all, m, i, n, store.stock)
      ensures IsSmooth(plan) && IsStockable(all, db.working.mappings, i, old(store.stock)) ==> fault.None?
      ensures OnlyOf(db.working.mappings, i, [j], old(store.stock), store.stock)
      ensures var m := db.working.mappings;
        fault.Some? <==>
          && m.variants[j].woo.Some?
          && (plan.search.Some?
              || (IsActive(all, m.variants[j].odoo)
                  && (m.products[i].woo.None? || SlotOf(m, i, j).value !in old(store.stock) || !plan.write.Ok?)))
    {
      var m := db.working.mappings;
      var product, vm := m.products[i].woo, m.variants[j];
      if vm.woo.None? {
        return None;
      }
      if plan.search.Some? {
        return plan.search;
      }
      var found := VariantWithId(all, vm.odoo);
      VariantWithIdMeans(all, vm.odoo);
      if found.None? {
        return None;
      }
      assert found.value in all;
      if product.None? {
        return Some(Api);
      }
      var due := Write(OfVariation(product.value, vm.woo.value), StockOf(found.value.quantity));
      assert IsDueFor(all, m, i, product.value, j, due);
      assert IsDue(all, m, i, due);
      assert SlotOf(m, i, j) == Some(due.slot) && j in [j];
      fault := store.Update(due.slot, due.quantity, plan.write);
      forall n, w | V.VariantKeys(m.variants) && n != j && IsDueFor(all, m, i, product.value, n, w) ensures w.slot != due.slot {
        assert m.variants[n].woo != vm.woo;
      }
    }

    /** The first failing variant ends the loop; the quantities written before it stay. */
    method SyncVariableProductStock(i: nat, fate: nat -> StockPlan) returns (fault: Option<Fault>)
      requires i in db.working.mappings.products && db.working.mappings.products[i].kind.Variable?
      requires Wired()
      modifies store
      ensures OnlyDue(all, db.working.mappings, i, old(store.stock), store.stock)
      ensures fault.None? && UniqueKeys(db.working.mappings) ==> Stocked(all, db.working.mappings, i, store.stock)
      ensures fault.Some? && UniqueKeys(db.working.mappings) ==>
        exists j :: EndsAt(all, db.working.mappings, i, j, old(store.stock), store.stock)
      ensures (forall k :: IsSmooth(fate(k))) && IsStockable(all, db.working.mappings, i, old(store.stock)) ==> fault.None?
    {
      var m := db.working.mappings;
      var rows := variantRepo.ListByProduct(i);
      for k := 0 to |rows|
        invariant Reached(all, m, i, rows, k, old(store.stock), store.stock)
      {
        assert rows[k] in VariantsUnder(m.variants, i);
        ghost var before := store.stock;
        fault := SyncVariantStock(i, rows[k], fate(k));
        ReachedMore(all, m, i, rows, k, old(store.stock), before, store.stock);
        if fault.Some? {
          if UniqueKeys(m) {
            StoppedAt(all, m, i, rows, k, old(store.stock), store.stock);
          }
          return;
        }
      }
      if UniqueKeys(m) {
        EveryRowHolds(all, m, i, rows, store.stock);
      }
      return None;
    }

    method SyncMappingStock(i: nat, fate: nat -> StockPlan) returns (fault: Option<Fault>)
      requires Wired() && i in db.working.mappings.products
      modifies store
      ensures OnlyDue(all, db.working.mappings, i, old(store.stock), store.stock)
      ensures fault.None? && UniqueKeys(db.working.mappings) ==> Stocked(all, db.working.mappings, i, store.stock)
      ensures (forall k :: IsSmooth(fate(k))) && IsStockable(all, db.working.mappings, i, old(store.stock)) ==> fault.None?
    {
      if db.working.mappings.products[i].kind.Variable? {
        fault := SyncVariableProductStock(i, fate);
      } else {
        assert (forall k :: IsSmooth(fate(k))) ==> IsSmooth(fate(0));
        fault := SyncSimpleProductStock(i, fate(0));
      }
    }

    /** The whole run.  listing is the answer of list_by_status, in any order, or the exception it raised; fate(k, n)
        is what the calls for quantity n of the k-th product do.  Whatever fails, every product without an
        error has all the stock it owes, and nothing but stock owed by a SYNCED row was written. */
    method SyncAllInventory(listing: Result<seq<nat>>, fate: (nat, nat) -> StockPlan) returns (r: InventoryResult)
      requires Wired() && UniqueKeys(db.working.mappings)
      requires listing.Done? ==> IsListing(db.working.mappings, listing.value)
      modifies store, db`committed
      ensures db.committed == db.working
      ensures r.total == r.updated + r.failed && |r.errors| == (if listing.Done? then r.failed else 1)
      ensures listing.Raised? ==> r.errors == [ListingFailed(listing.fault)] && store.stock == old(store.stock)
      ensures listing.Done? ==> forall e :: e in r.errors ==> IsOfSynced(db.working.mappings, e)
      ensures r.total == if listing.Done? then |listing.value| else 0
      ensures listing.Done? ==> forall i :: IsSynced(db.working.mappings, i) ==>
        StockedOrFailed(all, db.working.mappings, i, r.errors, store.stock)
      ensures OnlyDueBySynced(all, db.working.mappings, old(store.stock), store.stock)
      ensures (forall k, n :: IsSmooth(fate(k, n))) && EveryInShop(all, db.working.mappings, old(store.stock)) ==>
        r.failed == 0
    {
      r := InventoryResult(0, 0, 0, []);
      if listing.Raised? {
        r := r.(errors := [ListingFailed(listing.fault)]);
      } else {
        var m := db.working.mappings;
        var rows := listing.value;
        for k := 0 to |rows|
          invariant r.total == k == r.updated + r.failed && r.failed == |r.errors|
          invariant forall e :: e in r.errors ==> IsOfSynced(m, e)
          invariant forall n :: 0 <= n < k ==> StockedOrFailed(all, m, rows[n], r.errors, store.stock)
          invariant OnlyDueBySynced(all, m, old(store.stock), store.stock)
          invariant (forall k, n :: IsSmooth(fate(k, n))) && EveryInShop(all, m, old(store.stock)) ==> r.failed == 0
        {
          var i := rows[k];
          assert IsSynced(m, i);
          ghost var before := store.stock;
          var fault := SyncMappingStock(i, (n: nat) => fate(k, n));
          forall n | 0 <= n < k && Stocked(all, m, rows[n], before) ensures Stocked(all, m, rows[n], store.stock) {
            assert IsSynced(m, rows[n]);
            LaterWritesElsewhere(all, m, rows[n], i, before, store.stock);
          }
          if fault.None? {
            r := r.(total := r.total + 1, updated := r.updated + 1);
          } else {
            r := r.(total := r.total + 1, failed := r.failed + 1, errors := r.errors + [ProductFailed(m.products[i].sku)]);
          }
        }
      }
      db.Commit();
    }

    /** One product by SKU; only a success ends the transaction. */
    method SyncProductInventory(sku: string, fate: nat -> StockPlan) returns (r: R.InventoryFate)
      requires Wired()
      modifies store, db`committed
      ensures db.committed == if r.InventoryUpdated? then db.working else old(db.committed)
      ensures r.InventorySkipped? ==> store.stock == old(store.stock)
      ensures UniqueKeys(db.working.mappings) ==>
        (r.InventorySkipped? <==>
          forall i :: HasSku(db.working.mappings, i, sku) ==> db.working.mappings.products[i].woo.None?)
      ensures (forall k :: IsSmooth(fate(k))) && CanBeStocked(all, db.working.mappings, sku, old(store.stock)) ==>
        !r.InventoryFailed?
      ensures r.InventoryUpdated? && UniqueKeys(db.working.mappings) ==>
        exists i :: HasSku(db.working.mappings, i, sku) && Stocked(all, db.working.mappings, i, store.stock)
      ensures !r.InventorySkipped? ==>
        exists i :: HasSku(db.working.mappings, i, sku) && OnlyDue(all, db.working.mappings, i, old(store.stock), store.stock)
    {
      var m := db.working.mappings;
      var row := productRepo.GetBySku(sku);
      if row.None? || m.products[row.value].woo.None? {
        forall i | UniqueKeys(m) && HasSku(m, i, sku) ensures m.products[i].woo.None? {
          assert i in ProductsOfSku(m.products, sku);
        }
        return R.InventorySkipped;
      }
      assert HasSku(m, row.value, sku);
      var fault := SyncMappingStock(row.value, fate);
      if fault.Some? {
        return R.InventoryFailed;
      }
      db.Commit();
      return R.InventoryUpdated;
    }
  }

  predicate HasSku(m: Mappings, i: nat, sku: string) {
    i in m.products && m.products[i].sku == sku
  }

  predicate IsSynced(m: Mappings, i: nat) {
    i in m.products && m.products[i].status.Synced?
  }

  /** An answer of list_by_status: every SYNCED row once, in any order. */
  ghost predicate IsListing(m: Mappings, rows: seq<nat>) {
    && (forall i :: i in rows <==> IsSynced(m, i))
    && (forall a, b :: 0 <= a < b < |rows| ==> rows[a] != rows[b])
  }

  ghost predicate OnlyDueBySynced(all: seq<OdooVariant>, m: Mappings, before: map<Slot, int>, after: map<Slot, int>) {
    && after.Keys == before.Keys
    && forall slot :: slot in before ==>
         || after[slot] == before[slot]
         || exists i, w :: IsSynced(m, i) && IsDue(all, m, i, w) && w.slot == slot && after[slot] == w.quantity
  }

  /** Different rows own different products, so what one row owes is never overwritten for another. */
  lemma LaterWritesElsewhere(all: seq<OdooVariant>, m: Mappings, i: nat, later: nat, before: map<Slot, int>,
      after: map<Slot, int>)
    requires UniqueKeys(m) && i != later && i in m.products && later in m.products
    requires Stocked(all, m, i, before) && OnlyDue(all, m, later, before, after)
    ensures Stocked(all, m, i, after)
  {
    forall w | IsDue(all, m, i, w) ensures Holds(after, w) {
      assert w.slot.product == m.products[i].woo.value;
      assert w.slot in before;
      assert forall u :: IsDue(all, m, later, u) ==> u.slot != w.slot;
    }
  }

  /** Over every run the mappings are fit for a stock run: their keys are unique and every SYNCED row is linked. */
  lemma EveryRunCanBeStocked(cfg: Config, w: World, ops: seq<Op>)
    requires CatalogueRuns.Consistent(cfg, w)
    ensures var m := Run(cfg, w, ops).working.mappings;
      UniqueKeys(m) && forall i :: IsSynced(m, i) ==> m.products[i].woo.Some?
  {
    CatalogueRuns.RunConsistent(cfg, w, ops);
  }
}
