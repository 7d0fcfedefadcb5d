/** What one sync of a template means, whatever fails: when it is skipped, what a success and a failure leave behind. */
module TemplateOutcomes {
  import opened Outcomes
  import opened Tables
  import opened MappingRows
  import opened WooApi
  import opened ProductSync
  import opened CatalogueFrames

  // ---------- the SKU and the row of a template ----------

  /** A template is skipped exactly if it has no code of its own and none can be derived: it has not got several
      variants, their SKUs have nothing in common, or reading them fails. */
  lemma SkippedIff(s: Shelf, all: seq<OdooVariant>, p: OdooProduct, plan: ProductPlan)
    ensures SyncSingleProduct(s, all, p, plan).action.SkippedNoSku? <==>
      p.code == "" && (p.variantCount < 2 || p.derived == "" || plan.deriveFails)
    ensures SyncSingleProduct(s, all, p, plan).action.SkippedNoSku? ==> SyncSingleProduct(s, all, p, plan).shelf == s
  {
  }

  /** A template is sold under its own code, and without one under the SKU derived from its variants. */
  lemma SkuMeans(p: OdooProduct)
    ensures p.code != "" ==> Sku(p) == p.code
    ensures p.code == "" && 2 <= p.variantCount ==> Sku(p) == p.derived
    ensures p.code == "" && p.variantCount < 2 ==> Sku(p) == ""
  {
  }

  /** A row with the Odoo id comes before one with the SKU, and there is none only if no row has either. */
  lemma RowOfMeans(rows: map<nat, ProductRow>, p: OdooProduct, sku: string)
    ensures match ProductRowOf(rows, p, sku)
      case Some(i) =>
        && i in rows
        && (rows[i].odoo == p.id || (rows[i].sku == sku && forall j :: j in rows ==> rows[j].odoo != p.id))
      case None => forall j :: j in rows ==> rows[j].odoo != p.id && rows[j].sku != sku
  {
    forall j | j in rows ensures j in ProductsOfOdoo(rows, p.id) <==> rows[j].odoo == p.id {
    }
    forall j | j in rows ensures j in ProductsOfSku(rows, sku) <==> rows[j].sku == sku {
    }
  }

  lemma VariantRowOfMeans(rows: map<nat, VariantRow>, v: OdooVariant)
    ensures match VariantSync.VariantRowOf(rows, v)
      case Some(i) =>
        && i in rows
        && (rows[i].odoo == v.id || (rows[i].sku == v.code && forall j :: j in rows ==> rows[j].odoo != v.id))
      case None => forall j :: j in rows ==> rows[j].odoo != v.id && rows[j].sku != v.code
  {
    forall j | j in rows ensures j in VariantsOfOdoo(rows, v.id) <==> rows[j].odoo == v.id {
    }
    forall j | j in rows ensures j in VariantsOfSku(rows, v.code) <==> rows[j].sku == v.code {
    }
  }

  // ---------- simple products ----------

  /** A template that has not got several variants never touches a variation, a variant row at most by being dropped. */
  lemma SimpleLeavesVariations(s: Shelf, all: seq<OdooVariant>, p: OdooProduct, plan: ProductPlan)
    requires p.variantCount <= 1
    ensures var after := SyncSingleProduct(s, all, p, plan).shelf;
      && after.woo.variations == s.woo.variations && after.woo.madeUnder == s.woo.madeUnder
      && forall j :: j in after.mappings.variants ==> j in s.mappings.variants && after.mappings.variants[j] == s.mappings.variants[j]
  {
    if ResolvedSku(p, plan) != "" && plan.build.None? {
      LinkingAndVariants(s, p, plan);
    }
  }

  /** A settled row says Simple exactly if its template has not got several variants. */
  lemma SettledKind(s: Shelf, p: OdooProduct, i: nat, x: Id)
    requires SettledBy(s, p, i, x)
    ensures s.mappings.products[i].kind.Simple? <==> p.variantCount <= 1
  {
  }

  // ---------- success ----------

  ghost predicate LinkedNewly(before: Woo, link: Linking) {
    link.got.Done? ==> (link.got.value.created <==> link.got.value.woo !in before.products)
  }

  lemma LinkBySkuCreates(s: Shelf, row: Option<nat>, p: OdooProduct, plan: ProductPlan)
    requires row.Some? ==> row.value in s.mappings.products
    requires WooSound(s.woo)
    ensures LinkedNewly(s.woo, LinkBySku(s, row, p, Sku(p), plan))
  {
  }

  lemma LinkCreates(s: Shelf, p: OdooProduct, plan: ProductPlan)
    requires WooSound(s.woo)
    ensures LinkedNewly(s.woo, LinkProduct(s, p, Sku(p), plan))
  {
    FoundRowIsClaimed(s.mappings.products, p);
    match ProductRowOf(s.mappings.products, p, Sku(p)) {
      case None => LinkBySkuCreates(s, None, p, plan);
      case Some(i) =>
        LinkBySkuCreates(DropRow(Corrected(s, i, p, Sku(p)), i), None, p, plan);
        if s.mappings.products[i].woo.None? {
          LinkBySkuCreates(Corrected(s, i, p, Sku(p)), Some(i), p, plan);
        }
    }
  }

  /** A sync that succeeds has linked the template; if it has several variants, they are synced under the product, those
      that are active, in order. */
  lemma SucceedsAs(s: Shelf, all: seq<OdooVariant>, p: OdooProduct, plan: ProductPlan)
    requires var action := SyncSingleProduct(s, all, p, plan).action; action.Created? || action.Updated?
    ensures var r := SyncSingleProduct(s, all, p, plan);
      var link := LinkProduct(s, p, Sku(p), plan);
      && Sku(p) != "" && link.got.Done? && (r.action.Created? <==> link.got.value.created)
      && r.shelf
         == if p.variantCount <= 1 then link.shelf
            else VariantSync.SyncVariants(link.shelf, VariantSync.ActiveVariants(all, p.id), link.got.value.woo,
                                          ParentRow(link.shelf, Sku(p)), plan.variants).shelf
  {
  }

  /** A sync that reports a product as created or updated leaves its template settled, on a new product or on one there was. */
  lemma SuccessSettles(ps: seq<OdooProduct>, all: seq<OdooVariant>, durable: Mappings, s: Shelf, p: OdooProduct,
      plan: ProductPlan)
    requires CatalogueShelf(ps, all, durable, s) && p in ps
    requires var action := SyncSingleProduct(s, all, p, plan).action; action.Created? || action.Updated?
    ensures var r := SyncSingleProduct(s, all, p, plan);
      exists i, x :: SettledBy(r.shelf, p, i, x) && (r.action.Created? <==> x !in s.woo.products)
  {
    SucceedsAs(s, all, p, plan);
    LinkProductGood(ps, all, durable, s, p, plan);
    LinkCreates(s, p, plan);
    var link := LinkProduct(s, p, Sku(p), plan);
    var x := link.got.value.woo;
    var i :| SettledBy(link.shelf, p, i, x);
    if IsVariable(p) {
      SyncVariantsKeepsCatalogue(ps, all, durable, link.shelf, p, x, i, plan.variants);
    }
    assert SettledBy(SyncSingleProduct(s, all, p, plan).shelf, p, i, x);
  }

  // ---------- failure ----------

  /** A fault of an API class marks the rows with the SKU as failed, any other fault none, and nothing else changes. */
  lemma FailureMarks(s: Shelf, sku: string, fault: Fault)
    requires ProductKeys(s.mappings.products)
    ensures var r := Failure(s, sku, fault);
      && r.action == FailedWith(fault)
      && r.shelf == s.(mappings := s.mappings.(products := r.shelf.mappings.products))
      && r.shelf.mappings.products.Keys == s.mappings.products.Keys
      && forall i :: i in s.mappings.products ==>
           r.shelf.mappings.products[i]
           == if fault == Api && s.mappings.products[i].sku == sku then s.mappings.products[i].(status := SyncStatus.Failed)
              else s.mappings.products[i]
  {
    forall i | i in s.mappings.products && s.mappings.products[i].sku == sku
      ensures ProductBySku(s.mappings.products, sku) == Some(i) {
      assert i in ProductsOfSku(s.mappings.products, sku);
    }
  }

  lemma FailsAs(s: Shelf, all: seq<OdooVariant>, p: OdooProduct, plan: ProductPlan)
    requires SyncSingleProduct(s, all, p, plan).action.FailedWith?
    ensures var r := SyncSingleProduct(s, all, p, plan);
      && Sku(p) != ""
      && r == Failure(if plan.build.Some? then s else LinkProduct(s, p, Sku(p), plan).shelf, Sku(p), r.action.fault)
  {
  }

  /** So after a sync that failed with an API error the row of its SKU, if there is one, is marked as failed. */
  lemma ApiFailureIsMarked(ps: seq<OdooProduct>, all: seq<OdooVariant>, durable: Mappings, s: Shelf, p: OdooProduct,
      plan: ProductPlan)
    requires CatalogueShelf(ps, all, durable, s) && p in ps
    requires SyncSingleProduct(s, all, p, plan).action == FailedWith(Api)
    ensures var rows := SyncSingleProduct(s, all, p, plan).shelf.mappings.products;
      forall i :: i in rows && rows[i].sku == Sku(p) ==> rows[i].status.Failed?
  {
    FailsAs(s, all, p, plan);
    if plan.build.Some? {
      FailureMarks(s, Sku(p), Api);
    } else {
      LinkProductGood(ps, all, durable, s, p, plan);
      FailureMarks(LinkProduct(s, p, Sku(p), plan).shelf, Sku(p), Api);
    }
  }

  // ---------- when a template fails ----------

  /** Giving the SKU a product fails exactly if the lookup does, or the one product adopted or created is not heard to succeed. */
  lemma LinkBySkuFailsIff(s: Shelf, row: Option<nat>, p: OdooProduct, plan: ProductPlan)
    requires row.Some? ==> row.value in s.mappings.products
    ensures var link := LinkBySku(s, row, p, Sku(p), plan);
      && (link.got.Raised? <==>
            plan.lookup.Some? || if ProductsWithSku(s.woo, Sku(p)) != {} then !plan.adopt.Ok? else !plan.create.last.Ok?)
      && (link.got.Raised? ==> link.shelf.mappings == s.mappings)
  {
  }

  /** The row found is linked to a product. */
  predicate HasLink(s: Shelf, p: OdooProduct) {
    var row := ProductRowOf(s.mappings.products, p, Sku(p));
    row.Some? && row.value in s.mappings.products && s.mappings.products[row.value].woo.Some?
  }

  /** And that product is still there. */
  predicate HasLivingLink(s: Shelf, p: OdooProduct) {
    HasLink(s, p) && s.mappings.products[ProductRowOf(s.mappings.products, p, Sku(p)).value].woo.value in s.woo.products
  }

  /** Linking fails exactly if the update of a living product is not heard to succeed; or, where there is none, looking up
      and adopting or creating fails, or the update of the dead link fails with anything but "not found". */
  lemma LinkFailsIff(s: Shelf, p: OdooProduct, plan: ProductPlan)
    ensures LinkProduct(s, p, Sku(p), plan).got.Raised? <==>
      if HasLivingLink(s, p) then !plan.update.Ok?
      else
        || (HasLink(s, p) && !plan.update.Ok?)
        || plan.lookup.Some?
        || if ProductsWithSku(s.woo, Sku(p)) != {} then !plan.adopt.Ok? else !plan.create.last.Ok?
  {
    RowOfMeans(s.mappings.products, p, Sku(p));
    match ProductRowOf(s.mappings.products, p, Sku(p)) {
      case None => LinkBySkuFailsIff(s, None, p, plan);
      case Some(i) =>
        LinkBySkuFailsIff(DropRow(Corrected(s, i, p, Sku(p)), i), None, p, plan);
        LinkBySkuFailsIff(Corrected(s, i, p, Sku(p)), Some(i), p, plan);
    }
  }

  /** Of a link that fails: the row found carries the template's id and SKU, with its old link and status, unless that
      link was dead, and then it is gone with its variant rows; every other row is as it was. */
  lemma FailedLinkMeans(s: Shelf, p: OdooProduct, plan: ProductPlan)
    requires LinkProduct(s, p, Sku(p), plan).got.Raised?
    ensures var m := LinkProduct(s, p, Sku(p), plan).shelf.mappings;
      match ProductRowOf(s.mappings.products, p, Sku(p))
      case None => m == s.mappings
      case Some(i) =>
        && i in s.mappings.products
        && (forall j :: j != i ==>
              && (j in m.products <==> j in s.mappings.products)
              && (j in m.products ==> m.products[j] == s.mappings.products[j]))
        && if HasLink(s, p) && !HasLivingLink(s, p) && plan.update.Ok? then
             && i !in m.products
             && forall j ::
                  && (j in m.variants <==> j in s.mappings.variants && s.mappings.variants[j].parent != i)
                  && (j in m.variants ==> m.variants[j] == s.mappings.variants[j])
           else
             && i in m.products && m.products[i] == s.mappings.products[i].(odoo := p.id, sku := Sku(p))
             && m.variants == s.mappings.variants
  {
    RowOfMeans(s.mappings.products, p, Sku(p));
    match ProductRowOf(s.mappings.products, p, Sku(p)) {
      case None => LinkBySkuFailsIff(s, None, p, plan);
      case Some(i) =>
        LinkBySkuFailsIff(DropRow(Corrected(s, i, p, Sku(p)), i), None, p, plan);
        LinkBySkuFailsIff(Corrected(s, i, p, Sku(p)), Some(i), p, plan);
    }
  }

  /** An update whose answer is lost is in the shop all the same; one that does not arrive changes nothing there. */
  lemma UnheardUpdate(s: Shelf, p: OdooProduct, plan: ProductPlan)
    requires HasLivingLink(s, p) && !plan.update.Ok?
    ensures var link := LinkProduct(s, p, Sku(p), plan);
      var x := s.mappings.products[ProductRowOf(s.mappings.products, p, Sku(p)).value].woo.value;
      && link.got == Raised(plan.update.fault)
      && link.shelf.woo
         == s.woo.(products := if plan.update.Late? then s.woo.products[x := WooProduct(Sku(p), p.data)] else s.woo.products)
  {
  }

  /** The same of the product with the SKU that is adopted where there is no usable link. */
  lemma UnheardAdoption(s: Shelf, row: Option<nat>, p: OdooProduct, plan: ProductPlan)
    requires row.Some? ==> row.value in s.mappings.products
    requires plan.lookup.None? && !plan.adopt.Ok? && exists x :: x in s.woo.products && s.woo.products[x].sku == Sku(p)
    ensures var link := LinkBySku(s, row, p, Sku(p), plan);
      && link.got == Raised(plan.adopt.fault)
      && exists x :: x in s.woo.products && s.woo.products[x].sku == Sku(p)
           && link.shelf.woo
              == s.woo.(products := if plan.adopt.Late? then s.woo.products[x := WooProduct(Sku(p), p.data)] else s.woo.products)
  {
    var other :| other in s.woo.products && s.woo.products[other].sku == Sku(p);
    assert other in ProductsWithSku(s.woo, Sku(p));
    var x := Chosen(ProductsWithSku(s.woo, Sku(p)), plan.preferred).value;
    assert x in s.woo.products && s.woo.products[x].sku == Sku(p);
  }

  /** A template that is not skipped fails exactly if its data cannot be built, it cannot be linked, or it has several
      variants and they cannot be read; a variant that fails does not make it fail. */
  lemma FailsIff(s: Shelf, all: seq<OdooVariant>, p: OdooProduct, plan: ProductPlan)
    requires ResolvedSku(p, plan) != ""
    ensures SyncSingleProduct(s, all, p, plan).action.FailedWith? <==>
      plan.build.Some? || LinkProduct(s, p, Sku(p), plan).got.Raised? || (2 <= p.variantCount && plan.fetchVariants.Some?)
  {
  }

  // ---------- variants ----------

  /** A variant that has a code fails exactly if its data cannot be built, or the one call that updates, adopts or creates
      its variation is not heard to succeed or finds nothing to write to. */
  lemma VariantFailsIff(s: Shelf, v: OdooVariant, product: Id, parent: nat, plan: VariantSync.VariantPlan)
    requires v.code != ""
    ensures var row := VariantSync.VariantRowOf(s.mappings.variants, v);
      var failed := VariantSync.SyncVariant(s, v, product, parent, plan).outcome.VariantFailed?;
      && (row.Some? ==> row.value in s.mappings.variants)
      && (failed <==>
            || plan.build.Some?
            || if row.Some? && s.mappings.variants[row.value].woo.Some? then
                 var z := s.mappings.variants[row.value].woo.value;
                 !plan.update.Ok? || z !in s.woo.variations || s.woo.variations[z].parent != product
               else if !plan.listingFails && VariationsUnder(s.woo, product, v.code) != {} then !plan.adopt.Ok?
               else !plan.create.last.Ok? || product !in s.woo.products)
  {
    VariantRowOfMeans(s.mappings.variants, v);
  }

  /** The shelf after the first n variants of a list, each synced on what the one before it left. */
  function ShelfAfter(s: Shelf, vs: seq<OdooVariant>, product: Id, parent: nat, plans: seq<VariantSync.VariantPlan>,
      n: nat): Shelf
    requires n <= |vs|
    decreases n, 0
  {
    if n == 0 then s else TurnOf(s, vs, product, parent, plans, n - 1).shelf
  }

  /** What the sync of variant number n does. */
  function TurnOf(s: Shelf, vs: seq<OdooVariant>, product: Id, parent: nat, plans: seq<VariantSync.VariantPlan>, n: nat):
      VariantSync.VariantReply
    requires n < |vs|
    decreases n, 1
  {
    VariantSync.SyncVariant(ShelfAfter(s, vs, product, parent, plans, n), vs[n], product, parent, VariantSync.PlanOf(plans, n))
  }

  function OutcomesOf(s: Shelf, vs: seq<OdooVariant>, product: Id, parent: nat, plans: seq<VariantSync.VariantPlan>, n: nat):
      seq<VariantSync.VariantOutcome>
    requires n <= |vs|
  {
    if n == 0 then []
    else OutcomesOf(s, vs, product, parent, plans, n - 1) + [TurnOf(s, vs, product, parent, plans, n - 1).outcome]
  }

  /** The three counters say how often each outcome is among these. */
  ghost predicate CountsOutcomes(tally: VariantSync.Tally, outcomes: seq<VariantSync.VariantOutcome>) {
    var ends := multiset(outcomes);
    && tally.synced == ends[VariantSync.VariantSynced]
    && tally.skipped == ends[VariantSync.VariantSkipped]
    && tally.failed == ends[VariantSync.VariantFailed(Api)] + ends[VariantSync.VariantFailed(Other)]
    && tally.synced + tally.skipped + tally.failed == |outcomes|
  }

  lemma OneMoreOutcome(before: VariantSync.Tally, after: VariantSync.Tally, outcomes: seq<VariantSync.VariantOutcome>,
      last: VariantSync.VariantOutcome)
    requires CountsOutcomes(before, outcomes)
    requires after.synced == before.synced + (if last.VariantSynced? then 1 else 0)
    requires after.skipped == before.skipped + (if last.VariantSkipped? then 1 else 0)
    requires after.failed == before.failed + (if last.VariantFailed? then 1 else 0)
    ensures CountsOutcomes(after, outcomes + [last])
  {
    match last {
      case VariantFailed(fault) =>
        match fault {
          case Api =>
          case Other =>
        }
      case _ =>
    }
  }

  lemma TallyGrows(s: Shelf, vs: seq<OdooVariant>, product: Id, parent: nat, plans: seq<VariantSync.VariantPlan>, n: nat)
    requires n < |vs|
    ensures var before := VariantSync.SyncVariants(s, vs[..n], product, parent, plans);
      var reply := VariantSync.SyncVariant(before.shelf, vs[n], product, parent, VariantSync.PlanOf(plans, n));
      var after := VariantSync.SyncVariants(s, vs[..n + 1], product, parent, plans);
      && after.shelf == reply.shelf
      && after.synced == before.synced + (if reply.outcome.VariantSynced? then 1 else 0)
      && after.skipped == before.skipped + (if reply.outcome.VariantSkipped? then 1 else 0)
      && after.failed == before.failed + (if reply.outcome.VariantFailed? then 1 else 0)
  {
    assert vs[..n + 1][..n] == vs[..n] && vs[..n + 1][n] == vs[n];
  }

  /** The loop syncs every variant once, in order and whatever became of the others, and its counters count how. */
  lemma {:induction false} VariantsAreTallied(s: Shelf, vs: seq<OdooVariant>, product: Id, parent: nat,
      plans: seq<VariantSync.VariantPlan>, n: nat)
    requires n <= |vs|
    ensures var tally := VariantSync.SyncVariants(s, vs[..n], product, parent, plans);
      && tally.shelf == ShelfAfter(s, vs, product, parent, plans, n)
      && CountsOutcomes(tally, OutcomesOf(s, vs, product, parent, plans, n))
  {
    if n > 0 {
      VariantsAreTallied(s, vs, product, parent, plans, n - 1);
      TallyGrows(s, vs, product, parent, plans, n - 1);
      OneMoreOutcome(VariantSync.SyncVariants(s, vs[..n - 1], product, parent, plans),
                     VariantSync.SyncVariants(s, vs[..n], product, parent, plans),
                     OutcomesOf(s, vs, product, parent, plans, n - 1), TurnOf(s, vs, product, parent, plans, n - 1).outcome);
    }
  }

  /** A variant that counts as synced is mirrored under its product, whatever failed before; one that failed has its
      row, or none, as before. */
  lemma VariantOutcomeMeans(all: seq<OdooVariant>, durable: Mappings, s: Shelf, v: OdooVariant, product: Id, parent: nat,
      plan: VariantSync.VariantPlan)
    requires VariantSync.VariantShelf(all, durable, s) && VariantSync.RightPlace(s, product, parent) && VariantSync.IsListed(all, v)
    ensures var r := VariantSync.SyncVariant(s, v, product, parent, plan);
      && (r.outcome.VariantSynced? ==> VariantSync.Mirrored(r.shelf, v, product))
      && (r.outcome.VariantFailed? ==> r.shelf.mappings == s.mappings)
  {
    var r := VariantSync.SyncVariant(s, v, product, parent, plan);
    var row := VariantSync.VariantRowOf(s.mappings.variants, v);
    VariantSync.FoundRowIsOwned(s.mappings.variants, v);
    if r.outcome.VariantSynced? {
      assert VariantSync.MirroredBy(r.shelf, v, product, if row.Some? then row.value else s.nextVariantRow);
    }
  }

  /** A variant is skipped exactly if it has no code, and a failing build changes nothing. */
  lemma VariantSkippedIff(s: Shelf, v: OdooVariant, product: Id, parent: nat, plan: VariantSync.VariantPlan)
    ensures VariantSync.SyncVariant(s, v, product, parent, plan).outcome.VariantSkipped? <==> v.code == ""
    ensures v.code == "" || plan.build.Some? ==> VariantSync.SyncVariant(s, v, product, parent, plan).shelf == s
    ensures v.code != "" && plan.build.Some? ==>
      VariantSync.SyncVariant(s, v, product, parent, plan).outcome == VariantSync.VariantFailed(plan.build.value)
  {
  }

  /** The same of the variation that a variant is linked to. */
  lemma UnheardVariationUpdate(s: Shelf, v: OdooVariant, product: Id, parent: nat, plan: VariantSync.VariantPlan, z: Id)
    requires v.code != "" && plan.build.None? && !plan.update.Ok?
    requires var row := VariantSync.VariantRowOf(s.mappings.variants, v);
      row.Some? && row.value in s.mappings.variants && s.mappings.variants[row.value].woo == Some(z)
    requires z in s.woo.variations && s.woo.variations[z].parent == product
    ensures var r := VariantSync.SyncVariant(s, v, product, parent, plan);
      && r.outcome == VariantSync.VariantFailed(plan.update.fault) && r.shelf.mappings == s.mappings
      && r.shelf.woo
         == s.woo.(variations :=
              if plan.update.Late? then s.woo.variations[z := Variation(product, v.code, v.data)] else s.woo.variations)
  {
  }

  /** And of the variation with the SKU that is adopted by a variant without one. */
  lemma UnheardVariationAdoption(s: Shelf, v: OdooVariant, product: Id, parent: nat, plan: VariantSync.VariantPlan)
    requires v.code != "" && plan.build.None? && !plan.listingFails && !plan.adopt.Ok?
    requires var row := VariantSync.VariantRowOf(s.mappings.variants, v);
      row.Some? ==> row.value in s.mappings.variants && s.mappings.variants[row.value].woo.None?
    requires exists z :: z in s.woo.variations && s.woo.variations[z].parent == product && s.woo.variations[z].sku == v.code
    ensures var r := VariantSync.SyncVariant(s, v, product, parent, plan);
      && r.outcome == VariantSync.VariantFailed(plan.adopt.fault)
      && exists z :: z in s.woo.variations && s.woo.variations[z].parent == product && s.woo.variations[z].sku == v.code
           && r.shelf.woo
              == s.woo.(variations :=
                   if plan.adopt.Late? then s.woo.variations[z := Variation(product, v.code, v.data)] else s.woo.variations)
  {
    var other :| other in s.woo.variations && s.woo.variations[other].parent == product && s.woo.variations[other].sku == v.code;
    assert other in VariationsUnder(s.woo, product, v.code);
    var z := Chosen(VariationsUnder(s.woo, product, v.code), plan.preferred).value;
    assert z in s.woo.variations && s.woo.variations[z].parent == product && s.woo.variations[z].sku == v.code;
  }
}
