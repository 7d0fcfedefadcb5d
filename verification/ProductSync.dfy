/** Odoo templates to WooCommerce products: one template, with its mapping row and its variants. */
module ProductSync {
  import opened Outcomes
  import opened Tables
  import opened MappingRows
  import opened WooApi
  import opened VariantSync

  /** Outcomes of the calls made for one template, in the order they are made. */
  datatype ProductPlan = ProductPlan(
    deriveFails: bool,
    build: Option<Fault>,
    update: Call,
    lookup: Option<Fault>,
    preferred: int,
    adopt: Call,
    create: Posting,
    fetchVariants: Option<Fault>,
    variants: seq<VariantPlan>)

  datatype Linked = Linked(woo: Id, created: bool)

  datatype Linking = Linking(shelf: Shelf, got: Result<Linked>)

  datatype Action = Created | Updated | SkippedNoSku | FailedWith(fault: Fault)

  datatype ProductReply = ProductReply(shelf: Shelf, action: Action)

  // ---------- what the service does ----------

  function Sku(p: OdooProduct): string {
    if p.code != "" then p.code else if p.variantCount > 1 then p.derived else ""
  }

  /** Deriving a parent SKU reads the variants from Odoo; a failure is swallowed and leaves no SKU. */
  function ResolvedSku(p: OdooProduct, plan: ProductPlan): string {
    if p.code == "" && plan.deriveFails then "" else Sku(p)
  }

  function Kind(p: OdooProduct): ProductKind {
    if p.variantCount > 1 then Variable else Simple
  }

  function Payload(p: OdooProduct, sku: string): WooProduct {
    WooProduct(sku, p.data)
  }

  /** The row of a template: by its Odoo id, else by its SKU. */
  function ProductRowOf(rows: map<nat, ProductRow>, p: OdooProduct, sku: string): Option<nat> {
    match ProductByOdoo(rows, p.id)
    case Some(i) => Some(i)
    case None => ProductBySku(rows, sku)
  }

  function WithProduct(s: Shelf, i: nat, row: ProductRow): Shelf {
    s.(mappings := s.mappings.(products := s.mappings.products[i := row]))
  }

  function Corrected(s: Shelf, i: nat, p: OdooProduct, sku: string): Shelf
    requires i in s.mappings.products
  {
    WithProduct(s, i, s.mappings.products[i].(sku := sku, odoo := p.id))
  }

  /** Deleting a product row deletes the rows of its variants. */
  function DropRow(s: Shelf, i: nat): Shelf {
    s.(mappings := Mappings(
      s.mappings.products - {i},
      map j | j in s.mappings.variants && s.mappings.variants[j].parent != i :: s.mappings.variants[j]))
  }

  function AttachProduct(s: Shelf, row: Option<nat>, p: OdooProduct, sku: string, x: Id): Shelf
    requires row.Some? ==> row.value in s.mappings.products
  {
    match row
    case Some(i) =>
      WithProduct(s, i, s.mappings.products[i].(woo := Some(x), kind := Kind(p), status := SyncStatus.Synced))
    case None =>
      WithProduct(s, s.nextRow, ProductRow(p.id, Some(x), sku, Kind(p), SyncStatus.Synced)).(nextRow := s.nextRow + 1)
  }

  /** No usable link: adopt the WooCommerce product with this SKU, else create one. */
  function LinkBySku(s: Shelf, row: Option<nat>, p: OdooProduct, sku: string, plan: ProductPlan): Linking
    requires row.Some? ==> row.value in s.mappings.products
  {
    if plan.lookup.Some? then Linking(s, Raised(plan.lookup.value))
    else match Chosen(ProductsWithSku(s.woo, sku), plan.preferred)
      case Some(x) =>
        (match UpdateProduct(s.woo, x, Payload(p, sku), plan.adopt)
         case Updated(woo) => Linking(AttachProduct(s.(woo := woo), row, p, sku, x), Done(Linked(x, false)))
         case Broken(woo, f) => Linking(s.(woo := woo), Raised(f))
         case Missing => Linking(s, Raised(Api)))
      case None =>
        var reply := CreateProduct(s.woo, Payload(p, sku), plan.create);
        match reply.got
        case Done(x) => Linking(AttachProduct(s.(woo := reply.woo), row, p, sku, x), Done(Linked(x, true)))
        case Raised(f) => Linking(s.(woo := reply.woo), Raised(f))
  }

  function LinkProduct(s: Shelf, p: OdooProduct, sku: string, plan: ProductPlan): Linking {
    match ProductRowOf(s.mappings.products, p, sku)
    case None => LinkBySku(s, None, p, sku, plan)
    case Some(i) =>
      var fixed := Corrected(s, i, p, sku);
      match s.mappings.products[i].woo
      case None => LinkBySku(fixed, Some(i), p, sku, plan)
      case Some(x) =>
        match UpdateProduct(s.woo, x, Payload(p, sku), plan.update)
        case Updated(woo) => Linking(AttachProduct(fixed.(woo := woo), Some(i), p, sku, x), Done(Linked(x, false)))
        case Broken(woo, f) => Linking(fixed.(woo := woo), Raised(f))
        case Missing => LinkBySku(DropRow(fixed, i), None, p, sku, plan)
  }

  /** product_mapping_id: the row that carries the SKU, with 0 as the fallback. */
  function ParentRow(s: Shelf, sku: string): nat {
    match ProductBySku(s.mappings.products, sku)
    case Some(i) => i
    case None => 0
  }

  /** A fault of an API class marks the row that carries the SKU, if there is one. */
  function Failure(s: Shelf, sku: string, fault: Fault): ProductReply {
    match ProductBySku(s.mappings.products, sku)
    case Some(i) =>
      if fault.Other? then ProductReply(s, FailedWith(fault))
      else ProductReply(WithProduct(s, i, s.mappings.products[i].(status := SyncStatus.Failed)), FailedWith(fault))
    case None => ProductReply(s, FailedWith(fault))
  }

  function SyncSingleProduct(s: Shelf, all: seq<OdooVariant>, p: OdooProduct, plan: ProductPlan): ProductReply {
    var sku := ResolvedSku(p, plan);
    if sku == "" then ProductReply(s, SkippedNoSku)
    else if plan.build.Some? then Failure(s, sku, plan.build.value)
    else
      var link := LinkProduct(s, p, sku, plan);
      match link.got
      case Raised(f) => Failure(link.shelf, sku, f)
      case Done(linked) =>
        var action := if linked.created then Action.Created else Action.Updated;
        if Kind(p).Simple? then ProductReply(link.shelf, action)
        else if plan.fetchVariants.Some? then Failure(link.shelf, sku, plan.fetchVariants.value)
        else
          var tally := SyncVariants(link.shelf, ActiveVariants(all, p.id), linked.woo, ParentRow(link.shelf, sku), plan.variants);
          ProductReply(tally.shelf, action)
  }

  // ---------- invariants ----------

  ghost predicate Claims(p: OdooProduct, r: ProductRow) {
    r.odoo == p.id || r.sku == Sku(p)
  }

  ghost predicate IsSold(ps: seq<OdooProduct>, p: OdooProduct) {
    p in ps && Sku(p) != ""
  }

  ghost predicate DistinctProducts(ps: seq<OdooProduct>) {
    && (forall i, j :: 0 <= i < j < |ps| ==> ps[i].id != ps[j].id)
    && (forall i, j :: 0 <= i < j < |ps| && Sku(ps[i]) != "" ==> Sku(ps[i]) != Sku(ps[j]))
  }

  ghost predicate ProductKeys(rows: map<nat, ProductRow>) {
    forall i, j :: i in rows && j in rows && i != j ==>
      && rows[i].odoo != rows[j].odoo
      && rows[i].sku != rows[j].sku
      && (rows[i].woo.Some? ==> rows[i].woo != rows[j].woo)
  }

  /** No two templates claim the same row, and no template claims two rows. */
  ghost predicate ProductOwners(ps: seq<OdooProduct>, rows: map<nat, ProductRow>) {
    && (forall i, p, q :: i in rows && IsSold(ps, p) && IsSold(ps, q) && Claims(p, rows[i]) && Claims(q, rows[i]) ==> p == q)
    && (forall i, j, p :: i in rows && j in rows && IsSold(ps, p) && Claims(p, rows[i]) && Claims(p, rows[j]) ==> i == j)
  }

  ghost predicate LinkedTo(rows: map<nat, ProductRow>, i: nat, x: Id) {
    i in rows && rows[i].woo == Some(x)
  }

  ghost predicate Carries(woo: Woo, x: Id, p: OdooProduct) {
    x in woo.products && woo.products[x].sku == Sku(p)
  }

  /** At most one product of the shop carries the SKU of a template. */
  ghost predicate UniqueSkus(ps: seq<OdooProduct>, woo: Woo) {
    forall x, y, p :: IsSold(ps, p) && Carries(woo, x, p) && Carries(woo, y, p) ==> x == y
  }

  /** A row linked to the product that carries the SKU of a template is the row of that template. */
  ghost predicate HonestLinks(ps: seq<OdooProduct>, rows: map<nat, ProductRow>, woo: Woo) {
    forall i, x, p :: IsSold(ps, p) && Carries(woo, x, p) && LinkedTo(rows, i, x) ==> Claims(p, rows[i])
  }

  ghost predicate ProductRowsSound(rows: map<nat, ProductRow>, woo: Woo, nextRow: nat) {
    forall i :: i in rows ==>
      && i < nextRow
      && (rows[i].woo.Some? ==> rows[i].woo.value < woo.nextProduct)
      && (rows[i].status.Synced? ==> rows[i].woo.Some?)
  }

  ghost predicate ProductsTidy(ps: seq<OdooProduct>, rows: map<nat, ProductRow>, woo: Woo, nextRow: nat) {
    && ProductKeys(rows)
    && ProductOwners(ps, rows)
    && HonestLinks(ps, rows, woo)
    && ProductRowsSound(rows, woo, nextRow)
  }

  /** What a rollback may bring back: a row linked to a living product is still in the session with that
      link, and a row that survives in both belongs to the same template in both. */
  ghost predicate ProductLineage(ps: seq<OdooProduct>, durable: map<nat, ProductRow>, rows: map<nat, ProductRow>, woo: Woo) {
    && (forall i, x :: LinkedTo(durable, i, x) && x in woo.products ==> LinkedTo(rows, i, x))
    && (forall i, p :: i in durable && i in rows && IsSold(ps, p) ==> (Claims(p, durable[i]) <==> Claims(p, rows[i])))
  }

  ghost predicate ProductShelf(ps: seq<OdooProduct>, durable: map<nat, ProductRow>, s: Shelf) {
    && DistinctProducts(ps)
    && ProductsTidy(ps, s.mappings.products, s.woo, s.nextRow)
    && ProductsTidy(ps, durable, s.woo, s.nextRow)
    && ProductLineage(ps, durable, s.mappings.products, s.woo)
  }

  /** The catalogue invariant: no conflicts between Odoo, the mapping tables (as the session and as the
      database has them) and the shop. */
  ghost predicate CatalogueShelf(ps: seq<OdooProduct>, all: seq<OdooVariant>, durable: Mappings, s: Shelf) {
    && ProductShelf(ps, durable.products, s)
    && VariantShelf(all, durable, s)
  }

  lemma ClaimedRowIsFound(ps: seq<OdooProduct>, rows: map<nat, ProductRow>, i: nat, p: OdooProduct)
    requires ProductOwners(ps, rows) && IsSold(ps, p) && i in rows && Claims(p, rows[i])
    ensures ProductRowOf(rows, p, Sku(p)) == Some(i)
  {
    assert rows[i].odoo == p.id ==> i in ProductsOfOdoo(rows, p.id);
    assert rows[i].sku == Sku(p) ==> i in ProductsOfSku(rows, Sku(p));
  }

  lemma FoundRowIsClaimed(rows: map<nat, ProductRow>, p: OdooProduct)
    ensures var row := ProductRowOf(rows, p, Sku(p));
      && (row.Some? ==> row.value in rows && Claims(p, rows[row.value]))
      && (row.None? ==> forall i :: i in rows ==> !Claims(p, rows[i]))
  {
    if ProductRowOf(rows, p, Sku(p)).None? {
      forall i | i in rows ensures !Claims(p, rows[i]) {
        assert i !in ProductsOfOdoo(rows, p.id) && i !in ProductsOfSku(rows, Sku(p));
      }
    }
  }

  lemma DifferentProducts(ps: seq<OdooProduct>, p: OdooProduct, q: OdooProduct)
    requires DistinctProducts(ps) && p in ps && q in ps && p != q
    ensures p.id != q.id
    ensures IsSold(ps, p) && IsSold(ps, q) ==> Sku(p) != Sku(q)
  {
  }

  // ---------- one write at a time: the shop ----------

  /** Every row linked to x belongs to p, and a row of p linked to a living product is linked to x. */
  ghost predicate OnlyFor(p: OdooProduct, x: Id, rows: map<nat, ProductRow>, woo: Woo) {
    forall i, y :: LinkedTo(rows, i, y) ==>
      && (y == x ==> Claims(p, rows[i]))
      && (Claims(p, rows[i]) && y in woo.products ==> y == x)
  }

  lemma WriteKeepsTidy(ps: seq<OdooProduct>, rows: map<nat, ProductRow>, woo: Woo, after: Woo, nextRow: nat,
      p: OdooProduct, x: Id)
    requires DistinctProducts(ps) && IsSold(ps, p) && ProductsTidy(ps, rows, woo, nextRow) && OnlyFor(p, x, rows, woo)
    requires after.products == woo.products[x := Payload(p, Sku(p))] && woo.nextProduct <= after.nextProduct
    ensures ProductsTidy(ps, rows, after, nextRow)
  {
    forall i, y, q | IsSold(ps, q) && Carries(after, y, q) && LinkedTo(rows, i, y) ensures Claims(q, rows[i]) {
      if y == x {
        assert q == p;
      } else {
        assert Carries(woo, y, q);
      }
    }
  }

  /** The shop after the payload of p was written to the living product x. */
  ghost predicate Wrote(woo: Woo, after: Woo, p: OdooProduct, x: Id) {
    && x in woo.products
    && after == woo.(products := woo.products[x := Payload(p, Sku(p))])
  }

  lemma WriteProductKeeps(ps: seq<OdooProduct>, all: seq<OdooVariant>, durable: Mappings, s: Shelf, p: OdooProduct,
      x: Id, after: Woo)
    requires CatalogueShelf(ps, all, durable, s) && IsSold(ps, p) && Wrote(s.woo, after, p, x)
    requires OnlyFor(p, x, s.mappings.products, s.woo) && OnlyFor(p, x, durable.products, s.woo)
    ensures CatalogueShelf(ps, all, durable, s.(woo := after))
  {
    WriteKeepsTidy(ps, s.mappings.products, s.woo, after, s.nextRow, p, x);
    WriteKeepsTidy(ps, durable.products, s.woo, after, s.nextRow, p, x);
    ProductWriteKeepsVariants(all, durable, s, p, x, after);
  }

  /** No row is linked to a product that is yet to be made. */
  lemma MakeKeepsTidy(ps: seq<OdooProduct>, rows: map<nat, ProductRow>, woo: Woo, p: OdooProduct, n: nat, nextRow: nat)
    requires ProductsTidy(ps, rows, woo, nextRow)
    ensures ProductsTidy(ps, rows, MakeProducts(woo, Payload(p, Sku(p)), n), nextRow)
  {
    var after := MakeProducts(woo, Payload(p, Sku(p)), n);
    forall i, y, q | IsSold(ps, q) && Carries(after, y, q) && LinkedTo(rows, i, y) ensures Claims(q, rows[i]) {
      assert Carries(woo, y, q);
    }
  }

  lemma MakeKeepsVariants(all: seq<OdooVariant>, durable: Mappings, s: Shelf, p: OdooProduct, n: nat)
    requires VariantShelf(all, durable, s)
    ensures VariantShelf(all, durable, s.(woo := MakeProducts(s.woo, Payload(p, Sku(p)), n)))
  {
  }

  lemma ProductWriteKeepsVariants(all: seq<OdooVariant>, durable: Mappings, s: Shelf, p: OdooProduct, x: Id, after: Woo)
    requires VariantShelf(all, durable, s) && Wrote(s.woo, after, p, x)
    ensures VariantShelf(all, durable, s.(woo := after))
  {
  }

  // ---------- one write at a time: the rows ----------

  /** Rewriting a row without touching its link or what belongs to whom. */
  ghost predicate SameProductLinks(ps: seq<OdooProduct>, before: map<nat, ProductRow>, after: map<nat, ProductRow>) {
    && after.Keys == before.Keys
    && (forall i :: i in before ==> after[i].woo == before[i].woo)
    && (forall i, p :: i in before && IsSold(ps, p) ==> (Claims(p, before[i]) <==> Claims(p, after[i])))
  }

  lemma SameProductLinksKeep(ps: seq<OdooProduct>, all: seq<OdooVariant>, durable: Mappings, s: Shelf, rows: map<nat,
      ProductRow>)
    requires CatalogueShelf(ps, all, durable, s) && SameProductLinks(ps, s.mappings.products, rows)
    requires ProductKeys(rows)
    requires forall i :: i in rows && rows[i].status.Synced? ==> rows[i].woo.Some?
    ensures CatalogueShelf(ps, all, durable, s.(mappings := s.mappings.(products := rows)))
  {
    var before := s.mappings.products;
    forall i, x ensures LinkedTo(rows, i, x) <==> LinkedTo(before, i, x) {
    }
    assert ProductOwners(ps, rows) by {
      forall i, p, q | i in rows && IsSold(ps, p) && IsSold(ps, q) && Claims(p, rows[i]) && Claims(q, rows[i]) ensures p == q {
        assert Claims(p, before[i]) && Claims(q, before[i]);
      }
      forall i, j, p | i in rows && j in rows && IsSold(ps, p) && Claims(p, rows[i]) && Claims(p, rows[j]) ensures i == j {
        assert Claims(p, before[i]) && Claims(p, before[j]);
      }
    }
    assert HonestLinks(ps, rows, s.woo) by {
      forall i, x, p | IsSold(ps, p) && Carries(s.woo, x, p) && LinkedTo(rows, i, x) ensures Claims(p, rows[i]) {
        assert LinkedTo(before, i, x);
        assert Claims(p, before[i]);
      }
    }
  }

  lemma CorrectKeeps(ps: seq<OdooProduct>, all: seq<OdooVariant>, durable: Mappings, s: Shelf, p: OdooProduct, i: nat)
    requires CatalogueShelf(ps, all, durable, s) && IsSold(ps, p)
    requires ProductRowOf(s.mappings.products, p, Sku(p)) == Some(i)
    requires i in s.mappings.products
    ensures CatalogueShelf(ps, all, durable, Corrected(s, i, p, Sku(p)))
  {
    var before := s.mappings.products;
    FoundRowIsClaimed(before, p);
    var rows := Corrected(s, i, p, Sku(p)).mappings.products;
    forall j | j in before && j != i ensures before[j].odoo != p.id && before[j].sku != Sku(p) {
      assert !Claims(p, before[j]);
    }
    forall q | IsSold(ps, q) ensures Claims(q, before[i]) <==> Claims(q, rows[i]) {
      if q != p {
        DifferentProducts(ps, p, q);
        assert !Claims(q, before[i]);
      }
    }
    SameProductLinksKeep(ps, all, durable, s, rows);
  }

  lemma RestateKeeps(ps: seq<OdooProduct>, all: seq<OdooVariant>, durable: Mappings, s: Shelf, i: nat,
      kind: ProductKind, status: SyncStatus)
    requires CatalogueShelf(ps, all, durable, s) && i in s.mappings.products
    requires status.Synced? ==> s.mappings.products[i].woo.Some?
    ensures CatalogueShelf(ps, all, durable, WithProduct(s, i, s.mappings.products[i].(kind := kind, status := status)))
  {
    var rows := s.mappings.products[i := s.mappings.products[i].(kind := kind, status := status)];
    SameProductLinksKeep(ps, all, durable, s, rows);
  }

  /** A row whose product is gone from the shop can be dropped, and with it the rows of its variants. */
  lemma DropKeeps(ps: seq<OdooProduct>, all: seq<OdooVariant>, durable: Mappings, s: Shelf, i: nat, x: Id)
    requires CatalogueShelf(ps, all, durable, s)
    requires LinkedTo(s.mappings.products, i, x) && x !in s.woo.products
    ensures CatalogueShelf(ps, all, durable, DropRow(s, i))
  {
    var before := s.mappings.products;
    var after := DropRow(s, i);
    var rows := after.mappings.products;
    forall j, y ensures LinkedTo(rows, j, y) ==> LinkedTo(before, j, y) {
    }
    assert ProductOwners(ps, rows) by {
      forall j, p, q | j in rows && IsSold(ps, p) && IsSold(ps, q) && Claims(p, rows[j]) && Claims(q, rows[j]) ensures p == q {
        assert Claims(p, before[j]) && Claims(q, before[j]);
      }
      forall j, k, p | j in rows && k in rows && IsSold(ps, p) && Claims(p, rows[j]) && Claims(p, rows[k]) ensures j == k {
        assert Claims(p, before[j]) && Claims(p, before[k]);
      }
    }
    assert HonestLinks(ps, rows, s.woo) by {
      forall j, y, p | IsSold(ps, p) && Carries(s.woo, y, p) && LinkedTo(rows, j, y) ensures Claims(p, rows[j]) {
        assert LinkedTo(before, j, y);
      }
    }
    assert ProductLineage(ps, durable.products, rows, s.woo) by {
      forall j, y | LinkedTo(durable.products, j, y) && y in s.woo.products ensures LinkedTo(rows, j, y) {
        assert LinkedTo(before, j, y);
      }
    }
    DropKeepsVariants(all, durable, s, i, x);
  }

  lemma DropKeepsVariants(all: seq<OdooVariant>, durable: Mappings, s: Shelf, i: nat, x: Id)
    requires VariantShelf(all, durable, s)
    requires LinkedTo(s.mappings.products, i, x) && x !in s.woo.products
    ensures VariantShelf(all, durable, DropRow(s, i))
  {
  }

  /** p's row, or a new one, gets linked to the product that carries p's SKU. */
  ghost predicate Attachable(s: Shelf, row: Option<nat>, p: OdooProduct, x: Id) {
    && Carries(s.woo, x, p)
    && row == ProductRowOf(s.mappings.products, p, Sku(p))
    && (forall i :: !LinkedTo(s.mappings.products, i, x))
    && (row.Some? ==>
          && row.value in s.mappings.products
          && s.mappings.products[row.value].woo.None?
          && s.mappings.products[row.value].odoo == p.id
          && s.mappings.products[row.value].sku == Sku(p))
  }

  /** Row n is about to become r, the row of p linked to x, and no other row has to do with p or x. */
  ghost predicate Placing(ps: seq<OdooProduct>, before: map<nat, ProductRow>, woo: Woo, n: nat, r: ProductRow,
      p: OdooProduct, x: Id) {
    && DistinctProducts(ps) && IsSold(ps, p) && Carries(woo, x, p)
    && r.odoo == p.id && r.sku == Sku(p) && r.woo == Some(x)
    && (forall j :: j in before && j != n ==> !Claims(p, before[j]) && before[j].woo != Some(x))
  }

  lemma PlacedBelongsToOne(ps: seq<OdooProduct>, before: map<nat, ProductRow>, woo: Woo, n: nat, r: ProductRow,
      p: OdooProduct, x: Id)
    requires Placing(ps, before, woo, n, r, p, x)
    ensures forall q :: IsSold(ps, q) && Claims(q, r) ==> q == p
  {
  }

  lemma PlacingKeepsOwners(ps: seq<OdooProduct>, before: map<nat, ProductRow>, woo: Woo, n: nat, r: ProductRow,
      p: OdooProduct, x: Id)
    requires Placing(ps, before, woo, n, r, p, x) && ProductOwners(ps, before) && ProductKeys(before)
    ensures ProductOwners(ps, before[n := r]) && ProductKeys(before[n := r])
  {
    PlacedBelongsToOne(ps, before, woo, n, r, p, x);
    var rows := before[n := r];
    forall i, q, u | i in rows && IsSold(ps, q) && IsSold(ps, u) && Claims(q, rows[i]) && Claims(u, rows[i]) ensures q == u {
      assert i != n ==> Claims(q, before[i]) && Claims(u, before[i]);
    }
    forall i, j, q | i in rows && j in rows && IsSold(ps, q) && Claims(q, rows[i]) && Claims(q, rows[j]) ensures i == j {
      assert i != n && j != n ==> Claims(q, before[i]) && Claims(q, before[j]);
    }
  }

  lemma PlacingKeepsLinks(ps: seq<OdooProduct>, before: map<nat, ProductRow>, woo: Woo, n: nat, r: ProductRow,
      p: OdooProduct, x: Id)
    requires Placing(ps, before, woo, n, r, p, x) && HonestLinks(ps, before, woo)
    ensures HonestLinks(ps, before[n := r], woo)
  {
  }

  lemma AttachKeepsTidy(ps: seq<OdooProduct>, s: Shelf, row: Option<nat>, p: OdooProduct, x: Id)
    requires DistinctProducts(ps) && IsSold(ps, p) && Attachable(s, row, p, x)
    requires ProductsTidy(ps, s.mappings.products, s.woo, s.nextRow)
    requires x < s.woo.nextProduct
    requires row.Some? ==> row.value in s.mappings.products
    ensures var after := AttachProduct(s, row, p, Sku(p), x);
      ProductsTidy(ps, after.mappings.products, s.woo, after.nextRow)
  {
    var before := s.mappings.products;
    var n := if row.Some? then row.value else s.nextRow;
    var r := AttachProduct(s, row, p, Sku(p), x).mappings.products[n];
    FoundRowIsClaimed(before, p);
    forall j | j in before && j != n ensures !Claims(p, before[j]) && before[j].woo != Some(x) {
      assert !LinkedTo(before, j, x);
      if Claims(p, before[j]) {
        ClaimedRowIsFound(ps, before, j, p);
      }
    }
    PlacingKeepsOwners(ps, before, s.woo, n, r, p, x);
    PlacingKeepsLinks(ps, before, s.woo, n, r, p, x);
  }

  lemma AttachKeepsLineage(ps: seq<OdooProduct>, all: seq<OdooVariant>, durable: Mappings, s: Shelf,
      row: Option<nat>, p: OdooProduct, x: Id)
    requires ProductShelf(ps, durable.products, s) && IsSold(ps, p) && Attachable(s, row, p, x)
    requires row.Some? ==> row.value in s.mappings.products
    ensures ProductLineage(ps, durable.products, AttachProduct(s, row, p, Sku(p), x).mappings.products, s.woo)
  {
    var rows := AttachProduct(s, row, p, Sku(p), x).mappings.products;
    forall i, y | LinkedTo(durable.products, i, y) && y in s.woo.products ensures LinkedTo(rows, i, y) {
      assert LinkedTo(s.mappings.products, i, y);
    }
  }

  lemma AttachKeepsVariants(all: seq<OdooVariant>, durable: Mappings, s: Shelf, row: Option<nat>, p: OdooProduct, x: Id)
    requires VariantShelf(all, durable, s) && Attachable(s, row, p, x)
    requires ProductRowsSound(s.mappings.products, s.woo, s.nextRow)
    requires row.Some? ==> row.value in s.mappings.products
    ensures VariantShelf(all, durable, AttachProduct(s, row, p, Sku(p), x))
  {
    assert Parented(AttachProduct(s, row, p, Sku(p), x).mappings, s.woo);
  }

  lemma AttachKeepsCatalogue(ps: seq<OdooProduct>, all: seq<OdooVariant>, durable: Mappings, s: Shelf,
      row: Option<nat>, p: OdooProduct, x: Id)
    requires CatalogueShelf(ps, all, durable, s) && IsSold(ps, p) && Attachable(s, row, p, x)
    requires row.Some? ==> row.value in s.mappings.products
    ensures CatalogueShelf(ps, all, durable, AttachProduct(s, row, p, Sku(p), x))
  {
    AttachKeepsTidy(ps, s, row, p, x);
    AttachKeepsLineage(ps, all, durable, s, row, p, x);
    AttachKeepsVariants(all, durable, s, row, p, x);
  }

  // ---------- linking ----------

  /** p has no usable link: no row at all, or one that carries p's keys and is linked to nothing. */
  ghost predicate Unlinked(s: Shelf, row: Option<nat>, p: OdooProduct) {
    && row == ProductRowOf(s.mappings.products, p, Sku(p))
    && (row.Some? ==>
          && row.value in s.mappings.products
          && s.mappings.products[row.value].woo.None?
          && s.mappings.products[row.value].odoo == p.id
          && s.mappings.products[row.value].sku == Sku(p))
  }

  lemma UnlinkedHasNoLink(ps: seq<OdooProduct>, all: seq<OdooVariant>, durable: Mappings, s: Shelf, row: Option<nat>,
      p: OdooProduct)
    requires CatalogueShelf(ps, all, durable, s) && IsSold(ps, p) && Unlinked(s, row, p)
    ensures forall i, y :: LinkedTo(s.mappings.products, i, y) ==> !Claims(p, s.mappings.products[i])
    ensures forall i, y :: LinkedTo(durable.products, i, y) && y in s.woo.products ==> !Claims(p, durable.products[i])
  {
    FoundRowIsClaimed(s.mappings.products, p);
    forall i: nat, y | LinkedTo(s.mappings.products, i, y) ensures !Claims(p, s.mappings.products[i]) {
      if Claims(p, s.mappings.products[i]) {
        ClaimedRowIsFound(ps, s.mappings.products, i, p);
      }
    }
    forall i: nat, y | LinkedTo(durable.products, i, y) && y in s.woo.products ensures !Claims(p, durable.products[i]) {
      assert LinkedTo(s.mappings.products, i, y);
    }
  }

  /** Only a template with several variants is sold as a product with variations. */
  ghost predicate IsVariable(p: OdooProduct) {
    2 <= p.variantCount
  }

  /** Row i is the synced row of p, with p's keys, linked to the living product x that carries p's payload. */
  ghost predicate SettledBy(s: Shelf, p: OdooProduct, i: nat, x: Id) {
    && i in s.mappings.products
    && s.mappings.products[i] == ProductRow(p.id, Some(x), Sku(p), if IsVariable(p) then Variable else Simple, SyncStatus.Synced)
    && x in s.woo.products
    && s.woo.products[x] == WooProduct(Sku(p), p.data)
  }

  lemma AttachSettles(s: Shelf, row: Option<nat>, p: OdooProduct, x: Id) returns (i: nat)
    requires row.Some? ==>
      && row.value in s.mappings.products
      && s.mappings.products[row.value].odoo == p.id
      && s.mappings.products[row.value].sku == Sku(p)
    requires x in s.woo.products && s.woo.products[x] == Payload(p, Sku(p))
    ensures SettledBy(AttachProduct(s, row, p, Sku(p), x), p, i, x)
  {
    i := if row.Some? then row.value else s.nextRow;
  }

  lemma CarrierIsOnlyFor(ps: seq<OdooProduct>, all: seq<OdooVariant>, durable: Mappings, s: Shelf, row: Option<nat>,
      p: OdooProduct, x: Id)
    requires CatalogueShelf(ps, all, durable, s) && IsSold(ps, p) && Unlinked(s, row, p) && Carries(s.woo, x, p)
    ensures OnlyFor(p, x, s.mappings.products, s.woo) && OnlyFor(p, x, durable.products, s.woo)
    ensures forall i :: !LinkedTo(s.mappings.products, i, x)
  {
    UnlinkedHasNoLink(ps, all, durable, s, row, p);
  }

  lemma AdoptProduct(ps: seq<OdooProduct>, all: seq<OdooVariant>, durable: Mappings, s: Shelf, row: Option<nat>,
      p: OdooProduct, call: Call, x: Id)
    requires CatalogueShelf(ps, all, durable, s) && IsSold(ps, p) && Unlinked(s, row, p) && Carries(s.woo, x, p)
    ensures var end := UpdateProduct(s.woo, x, Payload(p, Sku(p)), call);
      && !end.Missing?
      && CatalogueShelf(ps, all, durable, s.(woo := end.woo))
      && (end.Updated? ==> Attachable(s.(woo := end.woo), row, p, x))
  {
    CarrierIsOnlyFor(ps, all, durable, s, row, p, x);
    var after := s.woo.(products := s.woo.products[x := Payload(p, Sku(p))]);
    WriteProductKeeps(ps, all, durable, s, p, x, after);
  }

  lemma MakeProduct(ps: seq<OdooProduct>, all: seq<OdooVariant>, durable: Mappings, s: Shelf, row: Option<nat>,
      p: OdooProduct, plan: ProductPlan)
    requires CatalogueShelf(ps, all, durable, s) && IsSold(ps, p) && Unlinked(s, row, p)
    ensures var reply := CreateProduct(s.woo, Payload(p, Sku(p)), plan.create);
      && CatalogueShelf(ps, all, durable, s.(woo := reply.woo))
      && (reply.got.Done? ==> Attachable(s.(woo := reply.woo), row, p, reply.got.value))
  {
    MakeKeepsTidy(ps, s.mappings.products, s.woo, p, plan.create.Effects(), s.nextRow);
    MakeKeepsTidy(ps, durable.products, s.woo, p, plan.create.Effects(), s.nextRow);
    MakeKeepsVariants(all, durable, s, p, plan.create.Effects());
  }

  /** What a linking step leaves behind: the invariant, and on success p settled. */
  ghost predicate GoodLink(ps: seq<OdooProduct>, all: seq<OdooVariant>, durable: Mappings, p: OdooProduct, link: Linking) {
    && CatalogueShelf(ps, all, durable, link.shelf)
    && (link.got.Done? ==> exists i :: SettledBy(link.shelf, p, i, link.got.value.woo))
  }

  lemma AttachGood(ps: seq<OdooProduct>, all: seq<OdooVariant>, durable: Mappings, s: Shelf, row: Option<nat>,
      p: OdooProduct, x: Id, created: bool)
    requires CatalogueShelf(ps, all, durable, s) && IsSold(ps, p) && Attachable(s, row, p, x)
    requires row.Some? ==>
      && row.value in s.mappings.products
      && s.mappings.products[row.value].odoo == p.id
      && s.mappings.products[row.value].sku == Sku(p)
    requires x in s.woo.products && s.woo.products[x] == Payload(p, Sku(p))
    ensures GoodLink(ps, all, durable, p, Linking(AttachProduct(s, row, p, Sku(p), x), Done(Linked(x, created))))
  {
    AttachKeepsCatalogue(ps, all, durable, s, row, p, x);
    var i := AttachSettles(s, row, p, x);
  }

  lemma AdoptGood(ps: seq<OdooProduct>, all: seq<OdooVariant>, durable: Mappings, s: Shelf, row: Option<nat>,
      p: OdooProduct, plan: ProductPlan, x: Id)
    requires CatalogueShelf(ps, all, durable, s) && IsSold(ps, p) && Unlinked(s, row, p) && plan.lookup.None?
    requires Chosen(ProductsWithSku(s.woo, Sku(p)), plan.preferred) == Some(x)
    ensures GoodLink(ps, all, durable, p, LinkBySku(s, row, p, Sku(p), plan))
  {
    AdoptProduct(ps, all, durable, s, row, p, plan.adopt, x);
    match UpdateProduct(s.woo, x, Payload(p, Sku(p)), plan.adopt) {
      case Updated(woo) => AttachGood(ps, all, durable, s.(woo := woo), row, p, x, false);
      case Broken(_, _) =>
      case Missing =>
    }
  }

  lemma CreateGood(ps: seq<OdooProduct>, all: seq<OdooVariant>, durable: Mappings, s: Shelf, row: Option<nat>,
      p: OdooProduct, plan: ProductPlan)
    requires CatalogueShelf(ps, all, durable, s) && IsSold(ps, p) && Unlinked(s, row, p) && plan.lookup.None?
    requires Chosen(ProductsWithSku(s.woo, Sku(p)), plan.preferred) == None
    ensures GoodLink(ps, all, durable, p, LinkBySku(s, row, p, Sku(p), plan))
  {
    MakeProduct(ps, all, durable, s, row, p, plan);
    var reply := CreateProduct(s.woo, Payload(p, Sku(p)), plan.create);
    if reply.got.Done? {
      AttachGood(ps, all, durable, s.(woo := reply.woo), row, p, reply.got.value, true);
    }
  }

  lemma LinkBySkuGood(ps: seq<OdooProduct>, all: seq<OdooVariant>, durable: Mappings, s: Shelf, row: Option<nat>,
      p: OdooProduct, plan: ProductPlan)
    requires CatalogueShelf(ps, all, durable, s) && IsSold(ps, p) && Unlinked(s, row, p)
    ensures GoodLink(ps, all, durable, p, LinkBySku(s, row, p, Sku(p), plan))
  {
    if plan.lookup.None? {
      match Chosen(ProductsWithSku(s.woo, Sku(p)), plan.preferred) {
        case Some(x) => AdoptGood(ps, all, durable, s, row, p, plan, x);
        case None => CreateGood(ps, all, durable, s, row, p, plan);
      }
    }
  }

  lemma LinkedIsOnlyFor(ps: seq<OdooProduct>, all: seq<OdooVariant>, durable: Mappings, s: Shelf, i: nat,
      p: OdooProduct, x: Id)
    requires CatalogueShelf(ps, all, durable, s) && IsSold(ps, p) && LinkedTo(s.mappings.products, i, x)
    requires Claims(p, s.mappings.products[i]) && x in s.woo.products
    ensures OnlyFor(p, x, s.mappings.products, s.woo) && OnlyFor(p, x, durable.products, s.woo)
  {
  }

  lemma WriteLinkedProductKeeps(ps: seq<OdooProduct>, all: seq<OdooVariant>, durable: Mappings, s: Shelf, i: nat,
      p: OdooProduct, x: Id)
    requires CatalogueShelf(ps, all, durable, s) && IsSold(ps, p) && LinkedTo(s.mappings.products, i, x)
    requires Claims(p, s.mappings.products[i]) && x in s.woo.products
    ensures CatalogueShelf(ps, all, durable, s.(woo := s.woo.(products := s.woo.products[x := Payload(p, Sku(p))])))
  {
    LinkedIsOnlyFor(ps, all, durable, s, i, p, x);
    WriteProductKeeps(ps, all, durable, s, p, x, s.woo.(products := s.woo.products[x := Payload(p, Sku(p))]));
  }

  lemma UpdateLinked(ps: seq<OdooProduct>, all: seq<OdooVariant>, durable: Mappings, s: Shelf, i: nat,
      p: OdooProduct, x: Id, call: Call)
    requires CatalogueShelf(ps, all, durable, s) && IsSold(ps, p) && LinkedTo(s.mappings.products, i, x)
    requires s.mappings.products[i].odoo == p.id && s.mappings.products[i].sku == Sku(p)
    ensures match UpdateProduct(s.woo, x, Payload(p, Sku(p)), call)
      case Updated(woo) =>
        && CatalogueShelf(ps, all, durable, AttachProduct(s.(woo := woo), Some(i), p, Sku(p), x))
        && SettledBy(AttachProduct(s.(woo := woo), Some(i), p, Sku(p), x), p, i, x)
      case Broken(woo, _) => CatalogueShelf(ps, all, durable, s.(woo := woo))
      case Missing => x !in s.woo.products
  {
    if x in s.woo.products {
      WriteLinkedProductKeeps(ps, all, durable, s, i, p, x);
      var after := s.woo.(products := s.woo.products[x := Payload(p, Sku(p))]);
      RestateKeeps(ps, all, durable, s.(woo := after), i, Kind(p), SyncStatus.Synced);
    }
  }

  lemma DroppedIsUnlinked(ps: seq<OdooProduct>, s: Shelf, i: nat, p: OdooProduct)
    requires ProductOwners(ps, s.mappings.products) && IsSold(ps, p)
    requires i in s.mappings.products && Claims(p, s.mappings.products[i])
    ensures Unlinked(DropRow(s, i), None, p)
  {
  }

  /** Linking keeps the invariant whatever fails, and a success settles the template. */
  lemma LinkProductGood(ps: seq<OdooProduct>, all: seq<OdooVariant>, durable: Mappings, s: Shelf, p: OdooProduct,
      plan: ProductPlan)
    requires CatalogueShelf(ps, all, durable, s) && IsSold(ps, p)
    ensures GoodLink(ps, all, durable, p, LinkProduct(s, p, Sku(p), plan))
  {
    var sku := Sku(p);
    FoundRowIsClaimed(s.mappings.products, p);
    match ProductRowOf(s.mappings.products, p, sku) {
      case None =>
        LinkBySkuGood(ps, all, durable, s, None, p, plan);
      case Some(i) =>
        var fixed := Corrected(s, i, p, sku);
        CorrectKeeps(ps, all, durable, s, p, i);
        ClaimedRowIsFound(ps, fixed.mappings.products, i, p);
        match s.mappings.products[i].woo {
          case None =>
            LinkBySkuGood(ps, all, durable, fixed, Some(i), p, plan);
          case Some(x) =>
            UpdateLinked(ps, all, durable, fixed, i, p, x, plan.update);
            if UpdateProduct(s.woo, x, Payload(p, sku), plan.update).Missing? {
              DropKeeps(ps, all, durable, fixed, i, x);
              DroppedIsUnlinked(ps, fixed, i, p);
              LinkBySkuGood(ps, all, durable, DropRow(fixed, i), None, p, plan);
            }
        }
    }
  }

  lemma FailureKeeps(ps: seq<OdooProduct>, all: seq<OdooVariant>, durable: Mappings, s: Shelf, sku: string, fault: Fault)
    requires CatalogueShelf(ps, all, durable, s)
    ensures CatalogueShelf(ps, all, durable, Failure(s, sku, fault).shelf)
  {
    match ProductBySku(s.mappings.products, sku) {
      case None =>
      case Some(i) =>
        RestateKeeps(ps, all, durable, s, i, s.mappings.products[i].kind, SyncStatus.Failed);
    }
  }

  /** After linking, the row that carries the SKU is the settled one, so the fallback row 0 is never used. */
  lemma ParentRowIsSettled(s: Shelf, p: OdooProduct, i: nat, x: Id)
    requires ProductKeys(s.mappings.products) && SettledBy(s, p, i, x)
    ensures ProductBySku(s.mappings.products, Sku(p)) == Some(i) && ParentRow(s, Sku(p)) == i
    ensures RightPlace(s, x, ParentRow(s, Sku(p)))
  {
    assert i in ProductsOfSku(s.mappings.products, Sku(p));
  }

  lemma SameCarriers(woo: Woo, after: Woo)
    requires after.products == woo.products
    ensures forall x, p :: Carries(after, x, p) <==> Carries(woo, x, p)
  {
  }

  lemma VariantsLeaveTidy(ps: seq<OdooProduct>, rows: map<nat, ProductRow>, woo: Woo, after: Woo, nextRow: nat)
    requires after.products == woo.products && after.nextProduct == woo.nextProduct
    requires ProductsTidy(ps, rows, woo, nextRow)
    ensures ProductsTidy(ps, rows, after, nextRow)
  {
    SameCarriers(woo, after);
  }

  lemma VariantsLeaveProducts(ps: seq<OdooProduct>, durable: map<nat, ProductRow>, s: Shelf, after: Shelf)
    requires ProductShelf(ps, durable, s) && OnlyVariantsMove(s, after)
    ensures ProductShelf(ps, durable, after)
  {
    VariantsLeaveTidy(ps, s.mappings.products, s.woo, after.woo, s.nextRow);
    VariantsLeaveTidy(ps, durable, s.woo, after.woo, s.nextRow);
    SameCarriers(s.woo, after.woo);
  }

  lemma SyncVariantsKeepsCatalogue(ps: seq<OdooProduct>, all: seq<OdooVariant>, durable: Mappings, s: Shelf,
      p: OdooProduct, x: Id, i: nat, plans: seq<VariantPlan>)
    requires CatalogueShelf(ps, all, durable, s) && SettledBy(s, p, i, x)
    ensures var after := SyncVariants(s, ActiveVariants(all, p.id), x, ParentRow(s, Sku(p)), plans).shelf;
      && CatalogueShelf(ps, all, durable, after)
      && OnlyVariantsMove(s, after)
      && SettledBy(after, p, i, x)
  {
    var after := SyncVariants(s, ActiveVariants(all, p.id), x, ParentRow(s, Sku(p)), plans).shelf;
    assert VariantShelf(all, durable, after) && OnlyVariantsMove(s, after) by {
      ParentRowIsSettled(s, p, i, x);
      ActiveVariantsAre(all, p.id);
      SyncVariantsKeeps(all, durable, s, ActiveVariants(all, p.id), x, ParentRow(s, Sku(p)), plans);
    }
    VariantsLeaveProducts(ps, durable.products, s, after);
  }

  /** What follows the link of p: its failure, or the variants. */
  lemma AfterLinkKeeps(ps: seq<OdooProduct>, all: seq<OdooVariant>, durable: Mappings, p: OdooProduct, link: Linking,
      plan: ProductPlan)
    requires GoodLink(ps, all, durable, p, link)
    ensures link.got.Raised? ==> CatalogueShelf(ps, all, durable, Failure(link.shelf, Sku(p), link.got.fault).shelf)
    ensures plan.fetchVariants.Some? ==>
      CatalogueShelf(ps, all, durable, Failure(link.shelf, Sku(p), plan.fetchVariants.value).shelf)
    ensures link.got.Done? ==> CatalogueShelf(ps, all, durable,
      SyncVariants(link.shelf, ActiveVariants(all, p.id), link.got.value.woo, ParentRow(link.shelf, Sku(p)), plan.variants).shelf)
  {
    if link.got.Raised? {
      FailureKeeps(ps, all, durable, link.shelf, Sku(p), link.got.fault);
    } else {
      var i :| SettledBy(link.shelf, p, i, link.got.value.woo);
      SyncVariantsKeepsCatalogue(ps, all, durable, link.shelf, p, link.got.value.woo, i, plan.variants);
    }
    if plan.fetchVariants.Some? {
      FailureKeeps(ps, all, durable, link.shelf, Sku(p), plan.fetchVariants.value);
    }
  }

  /** The catalogue invariant survives any outcome of one template. */
  lemma SyncSingleProductKeeps(ps: seq<OdooProduct>, all: seq<OdooVariant>, durable: Mappings, s: Shelf,
      p: OdooProduct, plan: ProductPlan)
    requires CatalogueShelf(ps, all, durable, s) && p in ps
    ensures CatalogueShelf(ps, all, durable, SyncSingleProduct(s, all, p, plan).shelf)
  {
    var sku := ResolvedSku(p, plan);
    if sku != "" {
      if plan.build.Some? {
        FailureKeeps(ps, all, durable, s, sku, plan.build.value);
      } else {
        LinkProductGood(ps, all, durable, s, p, plan);
        AfterLinkKeeps(ps, all, durable, p, LinkProduct(s, p, sku, plan), plan);
      }
    }
  }
}
