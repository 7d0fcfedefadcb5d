/** Odoo variants to WooCommerce variations, under one product. */
module VariantSync {
  import opened Outcomes
  import opened Tables
  import opened MappingRows
  import opened WooApi

  /** Outcomes of the calls made for one variant.  listing is the lookup of variations, whose failure is swallowed. */
  datatype VariantPlan = VariantPlan(
    build: Option<Fault>,
    update: Call,
    listingFails: bool,
    preferred: int,
    adopt: Call,
    create: Posting)

  const SMOOTH := VariantPlan(None, Ok, false, 0, Ok, Posting(0, Ok))

  /** Plans for a list of variants; missing entries mean that nothing fails. */
  function PlanOf(plans: seq<VariantPlan>, k: nat): VariantPlan {
    if k < |plans| then plans[k] else SMOOTH
  }

  /** The mapping tables as the session sees them, and the shop. */
  datatype Shelf = Shelf(mappings: Mappings, woo: Woo, nextRow: nat, nextVariantRow: nat)

  datatype VariantOutcome = VariantSynced | VariantSkipped | VariantFailed(fault: Fault)

  datatype VariantReply = VariantReply(shelf: Shelf, outcome: VariantOutcome)

  datatype Tally = Tally(shelf: Shelf, synced: nat, skipped: nat, failed: nat)

  // ---------- what the service does ----------

  function ActiveVariants(all: seq<OdooVariant>, template: Id): seq<OdooVariant> {
    if all == [] then []
    else if all[0].template == template && all[0].active then [all[0]] + ActiveVariants(all[1..], template)
    else ActiveVariants(all[1..], template)
  }

  /** The row of a variant: by its Odoo id, else by its SKU. */
  function VariantRowOf(rows: map<nat, VariantRow>, v: OdooVariant): Option<nat> {
    match VariantByOdoo(rows, v.id)
    case Some(i) => Some(i)
    case None => VariantBySku(rows, v.code)
  }

  /** create for a new row; mark_synced for an existing one, whose SKU and Odoo id are left as they are. */
  function AttachVariation(s: Shelf, row: Option<nat>, v: OdooVariant, parent: nat, z: Id): Shelf
    requires row.Some? ==> row.value in s.mappings.variants
  {
    match row
    case Some(i) =>
      var r := s.mappings.variants[i].(woo := Some(z), status := SyncStatus.Synced);
      s.(mappings := s.mappings.(variants := s.mappings.variants[i := r]))
    case None =>
      var r := VariantRow(parent, v.id, Some(z), v.code, SyncStatus.Synced);
      s.(mappings := s.mappings.(variants := s.mappings.variants[s.nextVariantRow := r]),
         nextVariantRow := s.nextVariantRow + 1)
  }

  function AdoptOrCreate(s: Shelf, row: Option<nat>, v: OdooVariant, product: Id, parent: nat,
      plan: VariantPlan): VariantReply
    requires row.Some? ==> row.value in s.mappings.variants
  {
    var found := if plan.listingFails then None else Chosen(VariationsUnder(s.woo, product, v.code), plan.preferred);
    var reply := match found
      case Some(z) => UpdateVariation(s.woo, product, z, v.code, v.data, plan.adopt)
      case None => CreateVariation(s.woo, product, v.code, v.data, plan.create);
    var written := s.(woo := reply.woo);
    match reply.got
    case Raised(f) => VariantReply(written, VariantFailed(f))
    case Done(z) => VariantReply(AttachVariation(written, row, v, parent, z), VariantSynced)
  }

  function SyncVariant(s: Shelf, v: OdooVariant, product: Id, parent: nat, plan: VariantPlan): VariantReply {
    if v.code == "" then VariantReply(s, VariantSkipped)
    else if plan.build.Some? then VariantReply(s, VariantFailed(plan.build.value))
    else
      var row := VariantRowOf(s.mappings.variants, v);
      if row.Some? && s.mappings.variants[row.value].woo.Some? then
        var z := s.mappings.variants[row.value].woo.value;
        var reply := UpdateVariation(s.woo, product, z, v.code, v.data, plan.update);
        var written := s.(woo := reply.woo);
        match reply.got
        case Raised(f) => VariantReply(written, VariantFailed(f))
        case Done(_) => VariantReply(AttachVariation(written, row, v, parent, z), VariantSynced)
      else
        AdoptOrCreate(s, row, v, product, parent, plan)
  }

  /** A failing variant is counted and the loop goes on. */
  function SyncVariants(s: Shelf, vs: seq<OdooVariant>, product: Id, parent: nat, plans: seq<VariantPlan>): Tally {
    if vs == [] then Tally(s, 0, 0, 0)
    else
      var n := |vs| - 1;
      var before := SyncVariants(s, vs[..n], product, parent, plans);
      var reply := SyncVariant(before.shelf, vs[n], product, parent, PlanOf(plans, n));
      match reply.outcome
      case VariantSynced => before.(shelf := reply.shelf, synced := before.synced + 1)
      case VariantSkipped => before.(shelf := reply.shelf, skipped := before.skipped + 1)
      case VariantFailed(_) => before.(shelf := reply.shelf, failed := before.failed + 1)
  }

  // ---------- invariants ----------

  ghost predicate Owns(v: OdooVariant, r: VariantRow) {
    r.odoo == v.id || r.sku == v.code
  }

  /** The variants the service works on, each with its own id and SKU. */
  ghost predicate IsListed(all: seq<OdooVariant>, v: OdooVariant) {
    v in all && v.active && v.code != ""
  }

  ghost predicate DistinctVariants(all: seq<OdooVariant>) {
    && (forall i, j :: 0 <= i < j < |all| ==> all[i].id != all[j].id)
    && (forall v, u :: IsListed(all, v) && IsListed(all, u) && v.code == u.code ==> v == u)
  }

  ghost predicate VariantKeys(rows: map<nat, VariantRow>) {
    forall i, j :: i in rows && j in rows && i != j ==>
      && rows[i].odoo != rows[j].odoo
      && rows[i].sku != rows[j].sku
      && (rows[i].woo.Some? ==> rows[i].woo != rows[j].woo)
  }

  /** No two variants of Odoo claim the same row, and no variant claims two rows. */
  ghost predicate VariantOwners(all: seq<OdooVariant>, rows: map<nat, VariantRow>) {
    && (forall i, v, u :: i in rows && IsListed(all, v) && IsListed(all, u) && Owns(v, rows[i]) && Owns(u, rows[i]) ==> v == u)
    && (forall i, j, v :: i in rows && j in rows && IsListed(all, v) && Owns(v, rows[i]) && Owns(v, rows[j]) ==> i == j)
  }

  /** A row linked to a variation that carries the SKU of a variant is the row of that variant. */
  ghost predicate VariantLinks(all: seq<OdooVariant>, rows: map<nat, VariantRow>, woo: Woo) {
    forall i, v ::
      && i in rows && IsListed(all, v)
      && rows[i].woo.Some? && rows[i].woo.value in woo.variations
      && woo.variations[rows[i].woo.value].sku == v.code
      ==> Owns(v, rows[i])
  }

  /** Every variant row has a live parent row and names a variation made under that parent's WooCommerce product. */
  ghost predicate Parented(m: Mappings, woo: Woo) {
    forall i :: i in m.variants ==>
      && m.variants[i].parent in m.products
      && m.variants[i].woo.Some?
      && m.variants[i].woo.value in woo.madeUnder
      && m.products[m.variants[i].parent].woo == Some(woo.madeUnder[m.variants[i].woo.value])
  }

  ghost predicate VariantsTidy(all: seq<OdooVariant>, m: Mappings, woo: Woo) {
    && VariantKeys(m.variants)
    && VariantOwners(all, m.variants)
    && VariantLinks(all, m.variants, woo)
    && Parented(m, woo)
  }

  /** What a rollback may bring back: a row that is linked to a live variation is still in the session, unchanged in its keys. */
  ghost predicate VariantLineage(durable: map<nat, VariantRow>, rows: map<nat, VariantRow>, woo: Woo) {
    forall i :: i in durable && durable[i].woo.Some? && durable[i].woo.value in woo.variations ==>
      && i in rows && rows[i].odoo == durable[i].odoo && rows[i].sku == durable[i].sku
      && rows[i].woo == durable[i].woo && rows[i].parent == durable[i].parent
  }

  /** The session's mappings and the durable ones are both fit to work with; durable may come back at any time. */
  ghost predicate VariantShelf(all: seq<OdooVariant>, durable: Mappings, s: Shelf) {
    && DistinctVariants(all)
    && WooSound(s.woo)
    && VariantsTidy(all, s.mappings, s.woo)
    && VariantsTidy(all, durable, s.woo)
    && VariantLineage(durable.variants, s.mappings.variants, s.woo)
    && (forall i :: i in s.mappings.variants ==> i < s.nextVariantRow)
    && (forall i :: i in durable.variants ==> i < s.nextVariantRow)
  }

  lemma OwnedRowIsFound(all: seq<OdooVariant>, rows: map<nat, VariantRow>, i: nat, v: OdooVariant)
    requires VariantOwners(all, rows) && IsListed(all, v) && i in rows && Owns(v, rows[i])
    ensures VariantRowOf(rows, v) == Some(i)
  {
    assert rows[i].odoo == v.id ==> i in VariantsOfOdoo(rows, v.id);
    assert rows[i].sku == v.code ==> i in VariantsOfSku(rows, v.code);
  }

  lemma FoundRowIsOwned(rows: map<nat, VariantRow>, v: OdooVariant)
    ensures var row := VariantRowOf(rows, v);
      && (row.Some? ==> row.value in rows && Owns(v, rows[row.value]))
      && (row.None? ==> forall i :: i in rows ==> !Owns(v, rows[i]))
  {
    if VariantRowOf(rows, v).None? {
      forall i | i in rows ensures !Owns(v, rows[i]) {
        assert i !in VariantsOfOdoo(rows, v.id) && i !in VariantsOfSku(rows, v.code);
      }
    }
  }

  // ---------- one write at a time ----------

  /** Writing the payload of v to a variation that only rows of v are linked to. */
  lemma WriteVariationKeeps(all: seq<OdooVariant>, durable: Mappings, s: Shelf, v: OdooVariant, product: Id, z: Id,
      call: Call)
    requires VariantShelf(all, durable, s) && IsListed(all, v)
    requires forall i :: i in s.mappings.variants && s.mappings.variants[i].woo == Some(z) ==>
      Owns(v, s.mappings.variants[i])
    requires forall i :: i in durable.variants && durable.variants[i].woo == Some(z) ==> Owns(v, durable.variants[i])
    ensures VariantShelf(all, durable, s.(woo := UpdateVariation(s.woo, product, z, v.code, v.data, call).woo))
  {
    var woo := UpdateVariation(s.woo, product, z, v.code, v.data, call).woo;
    assert VariantLinks(all, s.mappings.variants, woo);
    assert VariantLinks(all, durable.variants, woo);
  }

  lemma MakeVariationKeeps(all: seq<OdooVariant>, durable: Mappings, s: Shelf, v: OdooVariant, product: Id,
      posting: Posting)
    requires VariantShelf(all, durable, s) && IsListed(all, v)
    ensures VariantShelf(all, durable, s.(woo := CreateVariation(s.woo, product, v.code, v.data, posting).woo))
  {
    var woo := CreateVariation(s.woo, product, v.code, v.data, posting).woo;
    assert VariantLinks(all, s.mappings.variants, woo);
    assert VariantLinks(all, durable.variants, woo);
    assert Parented(s.mappings, woo);
    assert Parented(durable, woo);
  }

  /** Two tables that differ in row states only. */
  ghost predicate SameLinks(before: map<nat, VariantRow>, after: map<nat, VariantRow>) {
    && after.Keys == before.Keys
    && forall i :: i in before ==> after[i].(status := before[i].status) == before[i]
  }

  lemma SameLinksKeep(all: seq<OdooVariant>, durable: Mappings, s: Shelf, rows: map<nat, VariantRow>)
    requires VariantShelf(all, durable, s) && SameLinks(s.mappings.variants, rows)
    ensures VariantShelf(all, durable, s.(mappings := s.mappings.(variants := rows)))
  {
    var before := s.mappings.variants;
    forall i | i in rows
      ensures rows[i].odoo == before[i].odoo && rows[i].sku == before[i].sku
      ensures rows[i].woo == before[i].woo && rows[i].parent == before[i].parent {
    }
    assert VariantKeys(rows);
    assert VariantOwners(all, rows) by {
      forall i, j, v | i in rows && j in rows && IsListed(all, v) && Owns(v, rows[i]) && Owns(v, rows[j]) ensures i == j {
        assert Owns(v, before[i]) && Owns(v, before[j]);
      }
      forall i, v, u | i in rows && IsListed(all, v) && IsListed(all, u) && Owns(v, rows[i]) && Owns(u, rows[i]) ensures v == u {
        assert Owns(v, before[i]) && Owns(u, before[i]);
      }
    }
    assert VariantLinks(all, rows, s.woo) by {
      forall i, v |
        && i in rows && IsListed(all, v)
        && rows[i].woo.Some? && rows[i].woo.value in s.woo.variations
        && s.woo.variations[rows[i].woo.value].sku == v.code
        ensures Owns(v, rows[i]) {
        assert Owns(v, before[i]);
      }
    }
  }

  ghost predicate FreshRow(rows: map<nat, VariantRow>, n: nat, r: VariantRow) {
    && n !in rows
    && forall i :: i in rows ==> rows[i].odoo != r.odoo && rows[i].sku != r.sku && rows[i].woo != r.woo
  }

  lemma InsertKeepsKeys(rows: map<nat, VariantRow>, n: nat, r: VariantRow)
    requires VariantKeys(rows) && FreshRow(rows, n, r)
    ensures VariantKeys(rows[n := r])
  {
  }

  lemma InsertKeepsOwners(all: seq<OdooVariant>, rows: map<nat, VariantRow>, n: nat, r: VariantRow, v: OdooVariant)
    requires DistinctVariants(all) && VariantOwners(all, rows) && FreshRow(rows, n, r)
    requires IsListed(all, v) && r.odoo == v.id && r.sku == v.code
    ensures VariantOwners(all, rows[n := r])
  {
  }

  lemma InsertKeepsLinks(all: seq<OdooVariant>, rows: map<nat, VariantRow>, n: nat, r: VariantRow, v: OdooVariant, woo: Woo)
    requires DistinctVariants(all) && VariantLinks(all, rows, woo) && FreshRow(rows, n, r)
    requires IsListed(all, v) && r.sku == v.code
    requires r.woo.Some? && r.woo.value in woo.variations && woo.variations[r.woo.value].sku == v.code
    ensures VariantLinks(all, rows[n := r], woo)
  {
  }

  /** A new row for v, linked to a variation of v under the product its parent row is linked to. */
  lemma InsertKeeps(all: seq<OdooVariant>, durable: Mappings, s: Shelf, v: OdooVariant, product: Id, parent: nat, z: Id)
    requires VariantShelf(all, durable, s) && IsListed(all, v)
    requires VariantRowOf(s.mappings.variants, v).None?
    requires parent in s.mappings.products && s.mappings.products[parent].woo == Some(product)
    requires z in s.woo.variations && s.woo.variations[z].parent == product && s.woo.variations[z].sku == v.code
    ensures VariantShelf(all, durable, AttachVariation(s, None, v, parent, z))
  {
    var rows := s.mappings.variants;
    var n, r := s.nextVariantRow, VariantRow(parent, v.id, Some(z), v.code, SyncStatus.Synced);
    FoundRowIsOwned(rows, v);
    forall i | i in rows ensures rows[i].woo != Some(z) {
      assert !Owns(v, rows[i]);
    }
    assert FreshRow(rows, n, r);
    InsertKeepsKeys(rows, n, r);
    InsertKeepsOwners(all, rows, n, r, v);
    InsertKeepsLinks(all, rows, n, r, v, s.woo);
  }

  ghost predicate RightPlace(s: Shelf, product: Id, parent: nat) {
    && product in s.woo.products
    && parent in s.mappings.products
    && s.mappings.products[parent].woo == Some(product)
  }

  ghost predicate OnlyVariantsMove(before: Shelf, after: Shelf) {
    && after.mappings.products == before.mappings.products
    && after.woo.products == before.woo.products
    && after.woo.nextProduct == before.woo.nextProduct
    && after.nextRow == before.nextRow
  }

  lemma WriteLinkedKeeps(all: seq<OdooVariant>, durable: Mappings, s: Shelf, v: OdooVariant, product: Id, call: Call, i: nat)
    requires VariantShelf(all, durable, s) && IsListed(all, v)
    requires i in s.mappings.variants && Owns(v, s.mappings.variants[i])
    ensures VariantShelf(all, durable, s.(woo := UpdateVariation(s.woo, product, s.mappings.variants[i].woo.value, v.code, v.data, call).woo))
  {
    var z := s.mappings.variants[i].woo.value;
    if z in s.woo.variations {
      forall j | j in durable.variants && durable.variants[j].woo == Some(z) ensures Owns(v, durable.variants[j]) {
        assert j == i;
      }
      WriteVariationKeeps(all, durable, s, v, product, z, call);
    }
  }

  lemma UpdateLinkedKeeps(all: seq<OdooVariant>, durable: Mappings, s: Shelf, v: OdooVariant, product: Id,
      parent: nat, plan: VariantPlan, i: nat)
    requires VariantShelf(all, durable, s) && IsListed(all, v) && plan.build.None?
    requires VariantRowOf(s.mappings.variants, v) == Some(i)
    ensures VariantShelf(all, durable, SyncVariant(s, v, product, parent, plan).shelf)
  {
    var rows := s.mappings.variants;
    FoundRowIsOwned(rows, v);
    var z := rows[i].woo.value;
    WriteLinkedKeeps(all, durable, s, v, product, plan.update, i);
    var reply := UpdateVariation(s.woo, product, z, v.code, v.data, plan.update);
    SameLinksKeep(all, durable, s.(woo := reply.woo), rows[i := rows[i].(woo := Some(z), status := SyncStatus.Synced)]);
  }

  lemma AdoptKeeps(all: seq<OdooVariant>, durable: Mappings, s: Shelf, v: OdooVariant, product: Id, parent: nat,
      plan: VariantPlan, z: Id)
    requires VariantShelf(all, durable, s) && RightPlace(s, product, parent) && IsListed(all, v)
    requires VariantRowOf(s.mappings.variants, v).None?
    requires z in VariationsUnder(s.woo, product, v.code)
    ensures var reply := UpdateVariation(s.woo, product, z, v.code, v.data, plan.adopt);
      && VariantShelf(all, durable, s.(woo := reply.woo))
      && (reply.got.Done? ==> VariantShelf(all, durable, AttachVariation(s.(woo := reply.woo), None, v, parent, z)))
  {
    WriteVariationKeeps(all, durable, s, v, product, z, plan.adopt);
    var reply := UpdateVariation(s.woo, product, z, v.code, v.data, plan.adopt);
    if reply.got.Done? {
      InsertKeeps(all, durable, s.(woo := reply.woo), v, product, parent, z);
    }
  }

  lemma CreateKeeps(all: seq<OdooVariant>, durable: Mappings, s: Shelf, v: OdooVariant, product: Id, parent: nat,
      plan: VariantPlan)
    requires VariantShelf(all, durable, s) && RightPlace(s, product, parent) && IsListed(all, v)
    requires VariantRowOf(s.mappings.variants, v).None?
    ensures var reply := CreateVariation(s.woo, product, v.code, v.data, plan.create);
      && VariantShelf(all, durable, s.(woo := reply.woo))
      && (reply.got.Done? ==>
            VariantShelf(all, durable, AttachVariation(s.(woo := reply.woo), None, v, parent, reply.got.value)))
  {
    MakeVariationKeeps(all, durable, s, v, product, plan.create);
    var reply := CreateVariation(s.woo, product, v.code, v.data, plan.create);
    if reply.got.Done? {
      InsertKeeps(all, durable, s.(woo := reply.woo), v, product, parent, reply.got.value);
    }
  }

  /** The invariants survive any outcome of one variant. */
  lemma NewLinkKeeps(all: seq<OdooVariant>, durable: Mappings, s: Shelf, v: OdooVariant, product: Id, parent: nat,
      plan: VariantPlan)
    requires VariantShelf(all, durable, s) && RightPlace(s, product, parent) && IsListed(all, v)
    requires VariantRowOf(s.mappings.variants, v).None?
    ensures var r := AdoptOrCreate(s, None, v, product, parent, plan).shelf;
      VariantShelf(all, durable, r) && OnlyVariantsMove(s, r)
  {
    var found := if plan.listingFails then None else Chosen(VariationsUnder(s.woo, product, v.code), plan.preferred);
    if found.Some? {
      AdoptKeeps(all, durable, s, v, product, parent, plan, found.value);
    } else {
      CreateKeeps(all, durable, s, v, product, parent, plan);
    }
  }

  lemma SyncVariantKeeps(all: seq<OdooVariant>, durable: Mappings, s: Shelf, v: OdooVariant, product: Id,
      parent: nat, plan: VariantPlan)
    requires VariantShelf(all, durable, s) && RightPlace(s, product, parent)
    requires v in all && v.active
    ensures var r := SyncVariant(s, v, product, parent, plan).shelf;
      VariantShelf(all, durable, r) && OnlyVariantsMove(s, r)
  {
    var row := VariantRowOf(s.mappings.variants, v);
    FoundRowIsOwned(s.mappings.variants, v);
    if v.code != "" && plan.build.None? {
      if row.Some? {
        UpdateLinkedKeeps(all, durable, s, v, product, parent, plan, row.value);
      } else {
        NewLinkKeeps(all, durable, s, v, product, parent, plan);
      }
    }
  }

  ghost predicate NoRepeats(vs: seq<OdooVariant>) {
    forall i, j :: 0 <= i < j < |vs| ==> vs[i] != vs[j]
  }

  lemma {:induction false} ActiveVariantsAre(all: seq<OdooVariant>, template: Id)
    ensures forall v :: v in ActiveVariants(all, template) <==> v in all && v.active && v.template == template
  {
    if all != [] {
      ActiveVariantsAre(all[1..], template);
      assert all == [all[0]] + all[1..];
    }
  }

  /** v, the k-th record, is the first active one of the template. */
  ghost predicate IsFirstActive(all: seq<OdooVariant>, template: Id, k: nat) {
    && k < |all| && all[k].active && all[k].template == template
    && forall j :: 0 <= j < k ==> !(all[j].active && all[j].template == template)
  }

  lemma {:induction false} FirstActiveIsFirst(all: seq<OdooVariant>, template: Id) returns (k: nat)
    requires ActiveVariants(all, template) != []
    ensures IsFirstActive(all, template, k) && ActiveVariants(all, template)[0] == all[k]
  {
    if all[0].template == template && all[0].active {
      k := 0;
    } else {
      var i := FirstActiveIsFirst(all[1..], template);
      k := i + 1;
      forall j | 0 <= j < k ensures !(all[j].active && all[j].template == template) {
        assert j > 0 ==> all[1..][j - 1] == all[j];
      }
    }
  }

  lemma {:induction false} SyncVariantsKeeps(all: seq<OdooVariant>, durable: Mappings, s: Shelf,
      vs: seq<OdooVariant>, product: Id, parent: nat, plans: seq<VariantPlan>)
    requires VariantShelf(all, durable, s) && RightPlace(s, product, parent)
    requires forall v :: v in vs ==> v in all && v.active
    ensures var r := SyncVariants(s, vs, product, parent, plans);
      && VariantShelf(all, durable, r.shelf) && OnlyVariantsMove(s, r.shelf)
      && r.synced + r.skipped + r.failed == |vs|
  {
    if vs != [] {
      var n := |vs| - 1;
      SyncVariantsKeeps(all, durable, s, vs[..n], product, parent, plans);
      var before := SyncVariants(s, vs[..n], product, parent, plans);
      SyncVariantKeeps(all, durable, before.shelf, vs[n], product, parent, PlanOf(plans, n));
    }
  }

  // ---------- what a run without failures achieves ----------

  predicate IsSmooth(plan: VariantPlan) {
    plan.build.None? && plan.update.Ok? && !plan.listingFails && plan.adopt.Ok? && plan.create == Posting(0, Ok)
  }

  predicate AllSmooth(plans: seq<VariantPlan>) {
    forall k :: 0 <= k < |plans| ==> IsSmooth(plans[k])
  }

  /** The variation as it should be in the shop. */
  function Payload(v: OdooVariant, product: Id): Variation {
    Variation(product, v.code, v.data)
  }

  /** Row i is the synced row of v and names a variation under product with v's SKU and data. */
  ghost predicate MirroredBy(s: Shelf, v: OdooVariant, product: Id, i: nat) {
    && i in s.mappings.variants
    && var r := s.mappings.variants[i];
    && Owns(v, r) && r.status.Synced? && r.woo.Some?
    && r.woo.value in s.woo.variations && s.woo.variations[r.woo.value] == Payload(v, product)
  }

  ghost predicate Mirrored(s: Shelf, v: OdooVariant, product: Id) {
    exists i :: MirroredBy(s, v, product, i)
  }

  /** The row of v names a variation that is not to be found under the product any more. */
  ghost predicate Stranded(s: Shelf, v: OdooVariant, product: Id) {
    exists i ::
      && i in s.mappings.variants && Owns(v, s.mappings.variants[i])
      && s.mappings.variants[i].woo.Some?
      && var z := s.mappings.variants[i].woo.value;
         z !in s.woo.variations || s.woo.variations[z].parent != product
  }

  /** Everything one run says about v is the same in both states. */
  ghost predicate SameFor(before: Shelf, after: Shelf, v: OdooVariant) {
    && VariantRowOf(after.mappings.variants, v) == VariantRowOf(before.mappings.variants, v)
    && (var row := VariantRowOf(before.mappings.variants, v);
        row.Some? ==>
          && row.value in before.mappings.variants && row.value in after.mappings.variants
          && after.mappings.variants[row.value] == before.mappings.variants[row.value]
          && var z := before.mappings.variants[row.value].woo;
             z.Some? ==>
               && (z.value in after.woo.variations <==> z.value in before.woo.variations)
               && (z.value in before.woo.variations ==> after.woo.variations[z.value] == before.woo.variations[z.value]))
  }

  lemma SameForKeeps(all: seq<OdooVariant>, before: Shelf, after: Shelf, v: OdooVariant, product: Id)
    requires VariantOwners(all, before.mappings.variants) && VariantOwners(all, after.mappings.variants)
    requires IsListed(all, v) && SameFor(before, after, v)
    ensures Mirrored(before, v, product) <==> Mirrored(after, v, product)
    ensures Stranded(before, v, product) <==> Stranded(after, v, product)
  {
    var row := VariantRowOf(before.mappings.variants, v);
    FoundRowIsOwned(before.mappings.variants, v);
    FoundRowIsOwned(after.mappings.variants, v);
    forall i | i in before.mappings.variants && Owns(v, before.mappings.variants[i]) ensures row == Some(i) {
      OwnedRowIsFound(all, before.mappings.variants, i, v);
    }
    forall i | i in after.mappings.variants && Owns(v, after.mappings.variants[i]) ensures row == Some(i) {
      OwnedRowIsFound(all, after.mappings.variants, i, v);
    }
    if row.Some? {
      var i := row.value;
      assert MirroredBy(before, v, product, i) <==> MirroredBy(after, v, product, i);
      assert Mirrored(before, v, product) <==> MirroredBy(before, v, product, i);
      assert Mirrored(after, v, product) <==> MirroredBy(after, v, product, i);
    }
  }

  lemma DifferentVariants(all: seq<OdooVariant>, u: OdooVariant, v: OdooVariant)
    requires DistinctVariants(all) && u in all && v in all && u != v
    ensures u.id != v.id
    ensures IsListed(all, u) && IsListed(all, v) ==> u.code != v.code
  {
  }

  /** Rows whose keys are the same, plus possibly new ones that v does not own, answer v's lookup alike. */
  lemma SameLookup(before: map<nat, VariantRow>, after: map<nat, VariantRow>, v: OdooVariant)
    requires before.Keys <= after.Keys
    requires forall i :: i in before ==> after[i].odoo == before[i].odoo && after[i].sku == before[i].sku
    requires forall i :: i in after && i !in before ==> !Owns(v, after[i])
    ensures VariantRowOf(after, v) == VariantRowOf(before, v)
  {
    assert VariantsOfOdoo(after, v.id) == VariantsOfOdoo(before, v.id);
    assert VariantsOfSku(after, v.code) == VariantsOfSku(before, v.code);
  }

  lemma AttachLeavesOthers(all: seq<OdooVariant>, s: Shelf, row: Option<nat>, u: OdooVariant, parent: nat, z: Id,
      v: OdooVariant)
    requires DistinctVariants(all) && VariantOwners(all, s.mappings.variants)
    requires IsListed(all, u) && IsListed(all, v) && u != v
    requires row.Some? ==> row.value in s.mappings.variants && Owns(u, s.mappings.variants[row.value])
    requires s.nextVariantRow !in s.mappings.variants
    ensures SameFor(s, AttachVariation(s, row, u, parent, z), v)
  {
    DifferentVariants(all, u, v);
    FoundRowIsOwned(s.mappings.variants, v);
    SameLookup(s.mappings.variants, AttachVariation(s, row, u, parent, z).mappings.variants, v);
  }

  lemma WooStepLeavesOthers(s: Shelf, woo: Woo, v: OdooVariant, z: Id)
    requires forall y :: y != z ==> (y in woo.variations <==> y in s.woo.variations)
    requires forall y :: y != z && y in woo.variations ==> woo.variations[y] == s.woo.variations[y]
    requires var row := VariantRowOf(s.mappings.variants, v);
      row.Some? ==> row.value in s.mappings.variants && s.mappings.variants[row.value].woo != Some(z)
    ensures SameFor(s, s.(woo := woo), v)
  {
  }

  lemma SameForTrans(a: Shelf, b: Shelf, c: Shelf, v: OdooVariant)
    requires SameFor(a, b, v) && SameFor(b, c, v)
    ensures SameFor(a, c, v)
  {
  }

  /** The variation written for u is not the one the row of v is linked to. */
  lemma OtherVariation(all: seq<OdooVariant>, durable: Mappings, s: Shelf, u: OdooVariant, v: OdooVariant, z: Id)
    requires VariantShelf(all, durable, s) && IsListed(all, u) && IsListed(all, v) && u != v
    requires (exists i :: i in s.mappings.variants && Owns(u, s.mappings.variants[i]) && s.mappings.variants[i].woo == Some(z))
      || (z in s.woo.variations && s.woo.variations[z].sku == u.code)
    ensures var row := VariantRowOf(s.mappings.variants, v);
      row.Some? ==> row.value in s.mappings.variants && s.mappings.variants[row.value].woo != Some(z)
  {
  }

  lemma LinkedUpdateLeavesOthers(all: seq<OdooVariant>, durable: Mappings, s: Shelf, u: OdooVariant, product: Id,
      parent: nat, plan: VariantPlan, v: OdooVariant, i: nat)
    requires VariantShelf(all, durable, s) && IsListed(all, u) && IsListed(all, v) && u != v && plan.build.None?
    requires VariantRowOf(s.mappings.variants, u) == Some(i)
    ensures SameFor(s, SyncVariant(s, u, product, parent, plan).shelf, v)
  {
    FoundRowIsOwned(s.mappings.variants, u);
    var z := s.mappings.variants[i].woo.value;
    OtherVariation(all, durable, s, u, v, z);
    var reply := UpdateVariation(s.woo, product, z, u.code, u.data, plan.update);
    WooStepLeavesOthers(s, reply.woo, v, z);
    if reply.got.Done? {
      AttachLeavesOthers(all, s.(woo := reply.woo), Some(i), u, parent, z, v);
      SameForTrans(s, s.(woo := reply.woo), SyncVariant(s, u, product, parent, plan).shelf, v);
    }
  }

  lemma CreationLeavesOthers(all: seq<OdooVariant>, durable: Mappings, s: Shelf, u: OdooVariant, product: Id,
      posting: Posting, v: OdooVariant)
    requires VariantShelf(all, durable, s) && IsListed(all, v)
    ensures SameFor(s, s.(woo := CreateVariation(s.woo, product, u.code, u.data, posting).woo), v)
  {
    FoundRowIsOwned(s.mappings.variants, v);
  }

  lemma NewLinkLeavesOthers(all: seq<OdooVariant>, durable: Mappings, s: Shelf, u: OdooVariant, product: Id,
      parent: nat, plan: VariantPlan, v: OdooVariant)
    requires VariantShelf(all, durable, s) && IsListed(all, u) && IsListed(all, v) && u != v
    requires VariantRowOf(s.mappings.variants, u).None?
    ensures SameFor(s, AdoptOrCreate(s, None, u, product, parent, plan).shelf, v)
  {
    var found := if plan.listingFails then None else Chosen(VariationsUnder(s.woo, product, u.code), plan.preferred);
    var reply := match found
      case Some(y) => UpdateVariation(s.woo, product, y, u.code, u.data, plan.adopt)
      case None => CreateVariation(s.woo, product, u.code, u.data, plan.create);
    if found.Some? {
      OtherVariation(all, durable, s, u, v, found.value);
      WooStepLeavesOthers(s, reply.woo, v, found.value);
    } else {
      CreationLeavesOthers(all, durable, s, u, product, plan.create, v);
    }
    if reply.got.Done? {
      AttachLeavesOthers(all, s.(woo := reply.woo), None, u, parent, reply.got.value, v);
      SameForTrans(s, s.(woo := reply.woo), AdoptOrCreate(s, None, u, product, parent, plan).shelf, v);
    }
  }

  /** Whatever happens to one variant, the rows and variations of the others stay as they are. */
  lemma OthersUnaffected(all: seq<OdooVariant>, durable: Mappings, s: Shelf, u: OdooVariant, product: Id,
      parent: nat, plan: VariantPlan, v: OdooVariant)
    requires VariantShelf(all, durable, s) && u in all && u.active && IsListed(all, v) && u != v
    ensures SameFor(s, SyncVariant(s, u, product, parent, plan).shelf, v)
  {
    FoundRowIsOwned(s.mappings.variants, u);
    FoundRowIsOwned(s.mappings.variants, v);
    if u.code != "" && plan.build.None? {
      var row := VariantRowOf(s.mappings.variants, u);
      if row.Some? {
        LinkedUpdateLeavesOthers(all, durable, s, u, product, parent, plan, v, row.value);
      } else {
        NewLinkLeavesOthers(all, durable, s, u, product, parent, plan, v);
      }
    }
  }

  lemma SmoothLinkedVariant(all: seq<OdooVariant>, durable: Mappings, s: Shelf, v: OdooVariant, product: Id,
      parent: nat, plan: VariantPlan, i: nat)
    requires VariantShelf(all, durable, s) && IsListed(all, v) && IsSmooth(plan)
    requires VariantRowOf(s.mappings.variants, v) == Some(i) && i in s.mappings.variants && Owns(v, s.mappings.variants[i])
    ensures var r := SyncVariant(s, v, product, parent, plan);
      var z := s.mappings.variants[i].woo.value;
      if z in s.woo.variations && s.woo.variations[z].parent == product
      then r.outcome.VariantSynced? && MirroredBy(r.shelf, v, product, i) && (MirroredBy(s, v, product, i) ==> r.shelf == s)
      else r == VariantReply(s, VariantFailed(Api)) && Stranded(s, v, product)
  {
    var rows := s.mappings.variants;
    var z := rows[i].woo.value;
    if MirroredBy(s, v, product, i) {
      assert s.woo.variations[z := Payload(v, product)] == s.woo.variations;
      assert rows[i := rows[i]] == rows;
    }
  }

  lemma SmoothNewVariant(s: Shelf, v: OdooVariant, product: Id, parent: nat, plan: VariantPlan)
    requires RightPlace(s, product, parent) && v.code != "" && IsSmooth(plan) && VariantRowOf(s.mappings.variants, v).None?
    ensures Mirrored(SyncVariant(s, v, product, parent, plan).shelf, v, product)
  {
    assert MirroredBy(SyncVariant(s, v, product, parent, plan).shelf, v, product, s.nextVariantRow);
  }

  /** Without failures a variant ends mirrored exactly when its row was not stranded; a stranded one changes nothing. */
  lemma SmoothVariant(all: seq<OdooVariant>, durable: Mappings, s: Shelf, v: OdooVariant, product: Id, parent: nat,
      plan: VariantPlan)
    requires VariantShelf(all, durable, s) && RightPlace(s, product, parent) && IsListed(all, v) && IsSmooth(plan)
    ensures var r := SyncVariant(s, v, product, parent, plan);
      && (Mirrored(r.shelf, v, product) <==> !Stranded(s, v, product))
      && (Stranded(s, v, product) ==> r == VariantReply(s, VariantFailed(Api)))
      && (Mirrored(s, v, product) ==> r == VariantReply(s, VariantSynced))
  {
    var rows := s.mappings.variants;
    var row := VariantRowOf(rows, v);
    FoundRowIsOwned(rows, v);
    forall i | i in rows && Owns(v, rows[i]) ensures row == Some(i) {
      OwnedRowIsFound(all, rows, i, v);
    }
    if row.Some? {
      SmoothLinkedVariant(all, durable, s, v, product, parent, plan, row.value);
    } else {
      SmoothNewVariant(s, v, product, parent, plan);
    }
  }

  lemma SameForRefl(s: Shelf, v: OdooVariant)
    ensures SameFor(s, s, v)
  {
  }

  lemma {:induction false} ListLeavesOthers(all: seq<OdooVariant>, durable: Mappings, s: Shelf, vs: seq<OdooVariant>,
      product: Id, parent: nat, plans: seq<VariantPlan>, v: OdooVariant)
    requires VariantShelf(all, durable, s) && RightPlace(s, product, parent) && IsListed(all, v) && v !in vs
    requires forall u :: u in vs ==> u in all && u.active
    ensures SameFor(s, SyncVariants(s, vs, product, parent, plans).shelf, v)
  {
    if vs == [] {
      SameForRefl(s, v);
    } else {
      var n := |vs| - 1;
      ListLeavesOthers(all, durable, s, vs[..n], product, parent, plans, v);
      SyncVariantsKeeps(all, durable, s, vs[..n], product, parent, plans);
      var before := SyncVariants(s, vs[..n], product, parent, plans).shelf;
      OthersUnaffected(all, durable, before, vs[n], product, parent, PlanOf(plans, n), v);
      SameForTrans(s, before, SyncVariants(s, vs, product, parent, plans).shelf, v);
    }
  }

  lemma SmoothStep(all: seq<OdooVariant>, durable: Mappings, s: Shelf, u: OdooVariant, product: Id, parent: nat,
      plan: VariantPlan, v: OdooVariant)
    requires VariantShelf(all, durable, s) && RightPlace(s, product, parent) && IsSmooth(plan)
    requires u in all && u.active && IsListed(all, v)
    ensures var after := SyncVariant(s, u, product, parent, plan).shelf;
      && (if u == v then Mirrored(after, v, product) <==> !Stranded(s, v, product)
          else Mirrored(after, v, product) <==> Mirrored(s, v, product))
      && (Stranded(s, v, product) ==> Stranded(after, v, product))
  {
    if u == v {
      SmoothVariant(all, durable, s, v, product, parent, plan);
    } else {
      SyncVariantKeeps(all, durable, s, u, product, parent, plan);
      OthersUnaffected(all, durable, s, u, product, parent, plan, v);
      SameForKeeps(all, s, SyncVariant(s, u, product, parent, plan).shelf, v, product);
    }
  }

  lemma ListLeavesStranded(all: seq<OdooVariant>, durable: Mappings, s: Shelf, vs: seq<OdooVariant>, product: Id,
      parent: nat, plans: seq<VariantPlan>, v: OdooVariant)
    requires VariantShelf(all, durable, s) && RightPlace(s, product, parent) && IsListed(all, v) && v !in vs
    requires forall u :: u in vs ==> u in all && u.active
    ensures Stranded(SyncVariants(s, vs, product, parent, plans).shelf, v, product) <==> Stranded(s, v, product)
  {
    SyncVariantsKeeps(all, durable, s, vs, product, parent, plans);
    ListLeavesOthers(all, durable, s, vs, product, parent, plans, v);
    SameForKeeps(all, s, SyncVariants(s, vs, product, parent, plans).shelf, v, product);
  }

  lemma LastStep(s: Shelf, vs: seq<OdooVariant>, product: Id, parent: nat, plans: seq<VariantPlan>)
    requires vs != []
    ensures var n := |vs| - 1;
      SyncVariants(s, vs, product, parent, plans).shelf
      == SyncVariant(SyncVariants(s, vs[..n], product, parent, plans).shelf, vs[n], product, parent, PlanOf(plans, n)).shelf
  {
  }

  /** Without failures every listed variant ends mirrored unless its row was stranded. */
  lemma {:induction false} SmoothVariants(all: seq<OdooVariant>, durable: Mappings, s: Shelf, vs: seq<OdooVariant>,
      product: Id, parent: nat, plans: seq<VariantPlan>, v: OdooVariant)
    requires VariantShelf(all, durable, s) && RightPlace(s, product, parent) && AllSmooth(plans)
    requires forall u :: u in vs ==> u in all && u.active
    requires NoRepeats(vs)
    requires v in vs && v.code != ""
    ensures Mirrored(SyncVariants(s, vs, product, parent, plans).shelf, v, product) <==> !Stranded(s, v, product)
    ensures Stranded(s, v, product) ==> Stranded(SyncVariants(s, vs, product, parent, plans).shelf, v, product)
  {
    var n := |vs| - 1;
    var before := SyncVariants(s, vs[..n], product, parent, plans).shelf;
    assert VariantShelf(all, durable, before) && RightPlace(before, product, parent) by {
      SyncVariantsKeeps(all, durable, s, vs[..n], product, parent, plans);
    }
    LastStep(s, vs, product, parent, plans);
    if v == vs[n] {
      assert Stranded(before, v, product) <==> Stranded(s, v, product) by {
        assert v !in vs[..n];
        ListLeavesStranded(all, durable, s, vs[..n], product, parent, plans, v);
      }
    } else {
      assert v in vs[..n];
      SmoothVariants(all, durable, s, vs[..n], product, parent, plans, v);
    }
    SmoothStep(all, durable, before, vs[n], product, parent, PlanOf(plans, n), v);
  }

  /** A second run finds every variant mirrored or stranded and changes nothing. */
  lemma {:induction false} QuietVariants(all: seq<OdooVariant>, durable: Mappings, s: Shelf, vs: seq<OdooVariant>,
      product: Id, parent: nat, plans: seq<VariantPlan>)
    requires VariantShelf(all, durable, s) && RightPlace(s, product, parent) && AllSmooth(plans)
    requires forall u :: u in vs ==> u in all && u.active
    requires forall v :: v in vs && v.code != "" ==> Mirrored(s, v, product) || Stranded(s, v, product)
    ensures SyncVariants(s, vs, product, parent, plans).shelf == s
  {
    if vs != [] {
      var n := |vs| - 1;
      QuietVariants(all, durable, s, vs[..n], product, parent, plans);
      if vs[n].code != "" {
        SmoothVariant(all, durable, s, vs[n], product, parent, PlanOf(plans, n));
      }
    }
  }

  lemma NoRepeatsCons(v: OdooVariant, rest: seq<OdooVariant>)
    requires NoRepeats(rest) && v !in rest
    ensures NoRepeats([v] + rest)
  {
  }

  lemma {:induction false} ActiveVariantsDistinct(all: seq<OdooVariant>, template: Id)
    requires forall i, j :: 0 <= i < j < |all| ==> all[i].id != all[j].id
    ensures NoRepeats(ActiveVariants(all, template))
  {
    if all != [] {
      var rest := ActiveVariants(all[1..], template);
      ActiveVariantsDistinct(all[1..], template);
      ActiveVariantsAre(all[1..], template);
      assert all[0] !in rest;
      NoRepeatsCons(all[0], rest);
    }
  }
}
