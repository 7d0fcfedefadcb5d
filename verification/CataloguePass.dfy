/** A full pass over Odoo's templates: convergence, exact creation count, and quiescence. */
module CataloguePass {
  import opened Outcomes
  import opened Tables
  import opened MappingRows
  import opened WooApi
  import opened ProductSync
  import opened CatalogueFrames
  import opened Heritage

  const SMOOTH := ProductPlan(false, None, Ok, None, 0, Ok, Posting(0, Ok), None, [])

  /** Plans for a list of templates; missing entries mean that nothing fails. */
  function PlanOf(plans: seq<ProductPlan>, k: nat): ProductPlan {
    if k < |plans| then plans[k] else SMOOTH
  }

  datatype Summary = Summary(shelf: Shelf, created: nat, updated: nat, skipped: nat, failed: nat)

  function Pass(s: Shelf, all: seq<OdooVariant>, qs: seq<OdooProduct>, plans: seq<ProductPlan>): Summary {
    if qs == [] then Summary(s, 0, 0, 0, 0)
    else
      var n := |qs| - 1;
      var before := Pass(s, all, qs[..n], plans);
      var reply := SyncSingleProduct(before.shelf, all, qs[n], PlanOf(plans, n));
      match reply.action
      case Created => before.(shelf := reply.shelf, created := before.created + 1)
      case Updated => before.(shelf := reply.shelf, updated := before.updated + 1)
      case SkippedNoSku => before.(shelf := reply.shelf, skipped := before.skipped + 1)
      case FailedWith(_) => before.(shelf := reply.shelf, failed := before.failed + 1)
  }

  predicate IsSmooth(plan: ProductPlan) {
    && !plan.deriveFails && plan.build.None? && plan.update.Ok? && plan.lookup.None?
    && plan.adopt.Ok? && plan.create == Posting(0, Ok) && plan.fetchVariants.None?
    && VariantSync.AllSmooth(plan.variants)
  }

  predicate AllSmooth(plans: seq<ProductPlan>) {
    forall k :: 0 <= k < |plans| ==> IsSmooth(plans[k])
  }

  /** Any pass, whatever fails in it, keeps the catalogue invariant. */
  lemma {:induction false} PassKeepsSound(ps: seq<OdooProduct>, all: seq<OdooVariant>, durable: Mappings, s: Shelf,
      qs: seq<OdooProduct>, plans: seq<ProductPlan>)
    requires CatalogueSound(ps, all, durable, s) && forall q :: q in qs ==> q in ps
    ensures CatalogueSound(ps, all, durable, Pass(s, all, qs, plans).shelf)
  {
    if qs != [] {
      var n := |qs| - 1;
      PassKeepsSound(ps, all, durable, s, qs[..n], plans);
      SyncKeepsSound(ps, all, durable, Pass(s, all, qs[..n], plans).shelf, qs[n], PlanOf(plans, n));
    }
  }

  // ---------- one template without failures ----------

  ghost predicate AddedOne(before: Woo, after: Woo, added: bool) {
    && after.nextProduct == before.nextProduct + (if added then 1 else 0)
    && after.products.Keys == before.products.Keys + (if added then {before.nextProduct} else {})
  }

  lemma SmoothLinkBySku(ps: seq<OdooProduct>, all: seq<OdooVariant>, durable: Mappings, s: Shelf, row: Option<nat>,
      p: OdooProduct, plan: ProductPlan)
    requires CatalogueShelf(ps, all, durable, s) && IsSold(ps, p) && Unlinked(s, row, p) && IsSmooth(plan)
    ensures var link := LinkBySku(s, row, p, Sku(p), plan);
      && link.got.Done?
      && (link.got.value.created <==> forall x :: !Carries(s.woo, x, p))
      && AddedOne(s.woo, link.shelf.woo, link.got.value.created)
  {
    forall x ensures Carries(s.woo, x, p) <==> x in ProductsWithSku(s.woo, Sku(p)) {
    }
    var found := Chosen(ProductsWithSku(s.woo, Sku(p)), plan.preferred);
    if found.Some? {
      AdoptEnds(s, row, p, plan, found.value);
    } else {
      SmoothCreation(s, row, p, plan);
    }
  }

  lemma SmoothCreation(s: Shelf, row: Option<nat>, p: OdooProduct, plan: ProductPlan)
    requires row.Some? ==> row.value in s.mappings.products
    requires IsSmooth(plan) && ProductsWithSku(s.woo, Sku(p)) == {}
    ensures var link := LinkBySku(s, row, p, Sku(p), plan);
      link.got.Done? && link.got.value.created && AddedOne(s.woo, link.shelf.woo, true)
  {
    assert NextIds(s.woo.nextProduct, 1) == {s.woo.nextProduct};
  }

  /** Only the link of p's own row counts. */
  lemma NeedsProductByRow(ps: seq<OdooProduct>, s: Shelf, p: OdooProduct)
    requires ProductOwners(ps, s.mappings.products) && IsSold(ps, p)
    ensures var row := ProductRowOf(s.mappings.products, p, Sku(p));
      && (row.Some? ==> row.value in s.mappings.products)
      && (NeedsProduct(s, p) <==>
            && (forall x :: !Carries(s.woo, x, p))
            && !(row.Some? && s.mappings.products[row.value].woo.Some? && s.mappings.products[row.value].woo.value in s.woo.products))
  {
    var rows := s.mappings.products;
    var row := ProductRowOf(rows, p, Sku(p));
    FoundRowIsClaimed(rows, p);
    forall j: nat | Claimed(rows, j, p) ensures row == Some(j) {
      ClaimedRowIsFound(ps, rows, j, p);
    }
    if row.Some? {
      assert Claimed(rows, row.value, p);
      assert rows[row.value].woo.Some? ==> LinkedTo(rows, row.value, rows[row.value].woo.value);
    }
  }

  /** Written out: a living link is updated in place, a dead one is dropped and the SKU looked up. */
  lemma SmoothLinkedEnds(s: Shelf, p: OdooProduct, plan: ProductPlan, i: nat, x: Id)
    requires IsSmooth(plan)
    requires ProductRowOf(s.mappings.products, p, Sku(p)) == Some(i) && LinkedTo(s.mappings.products, i, x)
    ensures var link := LinkProduct(s, p, Sku(p), plan);
      if x in s.woo.products
      then link.got == Done(Linked(x, false)) && AddedOne(s.woo, link.shelf.woo, false)
      else link == LinkBySku(DropRow(Corrected(s, i, p, Sku(p)), i), None, p, Sku(p), plan)
  {
  }

  lemma SmoothRelink(ps: seq<OdooProduct>, all: seq<OdooVariant>, durable: Mappings, s: Shelf, p: OdooProduct,
      plan: ProductPlan, i: nat, x: Id)
    requires CatalogueShelf(ps, all, durable, s) && IsSold(ps, p) && IsSmooth(plan)
    requires LinkedTo(s.mappings.products, i, x) && x !in s.woo.products && Claims(p, s.mappings.products[i])
    ensures var link := LinkBySku(DropRow(s, i), None, p, Sku(p), plan);
      && link.got.Done?
      && (link.got.value.created <==> forall y :: !Carries(s.woo, y, p))
      && AddedOne(s.woo, link.shelf.woo, link.got.value.created)
  {
    DropKeeps(ps, all, durable, s, i, x);
    DroppedIsUnlinked(ps, s, i, p);
    SmoothLinkBySku(ps, all, durable, DropRow(s, i), None, p, plan);
  }

  lemma SmoothLinked(ps: seq<OdooProduct>, all: seq<OdooVariant>, durable: Mappings, s: Shelf, p: OdooProduct,
      plan: ProductPlan, i: nat, x: Id)
    requires CatalogueShelf(ps, all, durable, s) && IsSold(ps, p) && IsSmooth(plan)
    requires ProductRowOf(s.mappings.products, p, Sku(p)) == Some(i) && LinkedTo(s.mappings.products, i, x)
    requires Claims(p, s.mappings.products[i])
    ensures var link := LinkProduct(s, p, Sku(p), plan);
      && link.got.Done?
      && (link.got.value.created <==> x !in s.woo.products && forall y :: !Carries(s.woo, y, p))
      && AddedOne(s.woo, link.shelf.woo, link.got.value.created)
  {
    SmoothLinkedEnds(s, p, plan, i, x);
    if x !in s.woo.products {
      CorrectKeeps(ps, all, durable, s, p, i);
      SmoothRelink(ps, all, durable, Corrected(s, i, p, Sku(p)), p, plan, i, x);
    }
  }

  lemma SmoothLink(ps: seq<OdooProduct>, all: seq<OdooVariant>, durable: Mappings, s: Shelf, p: OdooProduct,
      plan: ProductPlan)
    requires CatalogueShelf(ps, all, durable, s) && IsSold(ps, p) && IsSmooth(plan)
    ensures var link := LinkProduct(s, p, Sku(p), plan);
      && link.got.Done?
      && (link.got.value.created <==> NeedsProduct(s, p))
      && AddedOne(s.woo, link.shelf.woo, link.got.value.created)
  {
    var rows := s.mappings.products;
    var row := ProductRowOf(rows, p, Sku(p));
    FoundRowIsClaimed(rows, p);
    NeedsProductByRow(ps, s, p);
    if row.None? {
      SmoothLinkBySku(ps, all, durable, s, None, p, plan);
    } else if rows[row.value].woo.Some? {
      SmoothLinked(ps, all, durable, s, p, plan, row.value, rows[row.value].woo.value);
    } else {
      var fixed := Corrected(s, row.value, p, Sku(p));
      CorrectKeeps(ps, all, durable, s, p, row.value);
      ClaimedRowIsFound(ps, fixed.mappings.products, row.value, p);
      SmoothLinkBySku(ps, all, durable, fixed, row, p, plan);
    }
  }

  lemma QuietLink(ps: seq<OdooProduct>, all: seq<OdooVariant>, durable: Mappings, s: Shelf, p: OdooProduct,
      plan: ProductPlan, i: nat, x: Id)
    requires CatalogueShelf(ps, all, durable, s) && IsSold(ps, p) && IsSmooth(plan) && SettledBy(s, p, i, x)
    ensures LinkProduct(s, p, Sku(p), plan) == Linking(s, Done(Linked(x, false)))
  {
    var rows := s.mappings.products;
    ClaimedRowIsFound(ps, rows, i, p);
    assert rows[i := rows[i]] == rows;
    assert s.woo.products[x := Payload(p, Sku(p))] == s.woo.products;
  }

  // ---------- variants of one template without failures ----------

  ghost predicate IsVariantOf(all: seq<OdooVariant>, v: OdooVariant, p: OdooProduct) {
    IsVariable(p) && VariantSync.IsListed(all, v) && v.template == p.id
  }

  ghost predicate LostBy(s: Shelf, v: OdooVariant, i: nat) {
    && i in s.mappings.variants
    && var r := s.mappings.variants[i];
    && VariantSync.Owns(v, r)
    && r.woo.Some? && r.woo.value !in s.woo.variations
    && r.parent in s.mappings.products
    && s.mappings.products[r.parent].woo.Some?
    && s.mappings.products[r.parent].woo.value in s.woo.products
  }

  /** The row of v names a variation that is gone, although the product it was made under is still there. */
  ghost predicate Lost(s: Shelf, v: OdooVariant) {
    exists i :: LostBy(s, v, i)
  }

  /** Each variant of p is mirrored under its product x unless it was lost at the start. */
  ghost predicate VariantsDone(start: Shelf, s: Shelf, all: seq<OdooVariant>, p: OdooProduct, x: Id) {
    forall v :: IsVariantOf(all, v, p) ==>
      && (VariantSync.Mirrored(s, v, x) <==> !Lost(start, v))
      && (Lost(start, v) ==> VariantSync.Stranded(s, v, x))
  }

  /** p is settled, and so are its variants. */
  ghost predicate DoneFor(start: Shelf, s: Shelf, all: seq<OdooVariant>, p: OdooProduct, i: nat, x: Id) {
    SettledBy(s, p, i, x) && VariantsDone(start, s, all, p, x)
  }

  /** After linking, the row of v is stranded exactly if v was lost. */
  lemma StrandedIffLost(ps: seq<OdooProduct>, all: seq<OdooVariant>, durable: Mappings, s: Shelf, p: OdooProduct,
      plan: ProductPlan, v: OdooVariant)
    requires CatalogueSound(ps, all, durable, s) && IsSold(ps, p) && IsSmooth(plan) && IsVariantOf(all, v, p)
    requires LinkProduct(s, p, Sku(p), plan).got.Done?
    ensures var link := LinkProduct(s, p, Sku(p), plan);
      VariantSync.Stranded(link.shelf, v, link.got.value.woo) <==> Lost(s, v)
  {
    var link := LinkProduct(s, p, Sku(p), plan);
    var x := link.got.value.woo;
    var rows := s.mappings.variants;
    VariantSync.FoundRowIsOwned(rows, v);
    FoundRowIsClaimed(s.mappings.products, p);
    var row := VariantSync.VariantRowOf(rows, v);
    forall j | j in rows && VariantSync.Owns(v, rows[j]) ensures row == Some(j) {
      VariantSync.OwnedRowIsFound(all, rows, j, v);
    }
    LinkingAndVariants(s, p, plan);
    if row.None? {
      forall j | j in link.shelf.mappings.variants ensures !VariantSync.Owns(v, link.shelf.mappings.variants[j]) {
      }
    } else {
      HomeRowDecides(ps, all, durable, s, p, plan, v, row.value);
    }
  }

  lemma HomeRowDecides(ps: seq<OdooProduct>, all: seq<OdooVariant>, durable: Mappings, s: Shelf, p: OdooProduct,
      plan: ProductPlan, v: OdooVariant, j: nat)
    requires CatalogueSound(ps, all, durable, s) && IsSold(ps, p) && IsSmooth(plan) && IsVariantOf(all, v, p)
    requires LinkProduct(s, p, Sku(p), plan).got.Done?
    requires j in s.mappings.variants && VariantSync.Owns(v, s.mappings.variants[j])
    requires forall k :: k in s.mappings.variants && VariantSync.Owns(v, s.mappings.variants[k]) ==> k == j
    ensures var link := LinkProduct(s, p, Sku(p), plan);
      VariantSync.Stranded(link.shelf, v, link.got.value.woo) <==> Lost(s, v)
  {
    var link := LinkProduct(s, p, Sku(p), plan);
    var r := s.mappings.variants[j];
    var i := r.parent;
    assert HomeOf(p, s.mappings, i);
    ClaimedRowIsFound(ps, s.mappings.products, i, p);
    var x := s.mappings.products[i].woo.value;
    assert LinkedTo(s.mappings.products, i, x);
    UpdateEnds(s, i, p, plan, x);
    if x in s.woo.products {
      assert link.got.value.woo == x && SameVariants(s, link.shelf);
      assert LostBy(s, v, j) <==> r.woo.value !in s.woo.variations;
      assert Lost(s, v) <==> LostBy(s, v, j);
    } else {
      LinkBySkuSameVariants(DropRow(Corrected(s, i, p, Sku(p)), i), None, p, plan);
      assert SameVariants(DropRow(s, i), link.shelf) by {
        assert DropRow(Corrected(s, i, p, Sku(p)), i).mappings.variants == DropRow(s, i).mappings.variants;
      }
      assert forall k :: k in link.shelf.mappings.variants ==> !VariantSync.Owns(v, link.shelf.mappings.variants[k]);
      assert !Lost(s, v);
    }
  }

  // ---------- one template, start to end ----------

  /** The two parts of a template put together: its link, and its variants. */
  lemma SmoothParts(s: Shelf, all: seq<OdooVariant>, p: OdooProduct, plan: ProductPlan, i: nat, x: Id)
    requires IsSmooth(plan) && Sku(p) != ""
    requires LinkProduct(s, p, Sku(p), plan).got == Done(Linked(x, NeedsProduct(s, p)))
    requires AddedOne(s.woo, LinkProduct(s, p, Sku(p), plan).shelf.woo, NeedsProduct(s, p))
    requires SettledBy(LinkProduct(s, p, Sku(p), plan).shelf, p, i, x)
    requires Kind(p).Variable? ==>
      var linked := LinkProduct(s, p, Sku(p), plan).shelf;
      var after := VariantSync.SyncVariants(linked, VariantSync.ActiveVariants(all, p.id), x, ParentRow(linked, Sku(p)), plan.variants).shelf;
      VariantSync.OnlyVariantsMove(linked, after) && SettledBy(after, p, i, x) && VariantsDone(s, after, all, p, x)
    ensures var r := SyncSingleProduct(s, all, p, plan);
      && DoneFor(s, r.shelf, all, p, i, x)
      && r.action == (if NeedsProduct(s, p) then Action.Created else Action.Updated)
      && AddedOne(s.woo, r.shelf.woo, NeedsProduct(s, p))
  {
  }

  lemma SmoothProduct(ps: seq<OdooProduct>, all: seq<OdooVariant>, durable: Mappings, s: Shelf, p: OdooProduct,
      plan: ProductPlan) returns (i: nat, x: Id)
    requires CatalogueSound(ps, all, durable, s) && IsSold(ps, p) && IsSmooth(plan)
    ensures var r := SyncSingleProduct(s, all, p, plan);
      && DoneFor(s, r.shelf, all, p, i, x)
      && r.action == (if NeedsProduct(s, p) then Action.Created else Action.Updated)
      && AddedOne(s.woo, r.shelf.woo, NeedsProduct(s, p))
  {
    var link := LinkProduct(s, p, Sku(p), plan);
    SmoothLink(ps, all, durable, s, p, plan);
    LinkProductGood(ps, all, durable, s, p, plan);
    x := link.got.value.woo;
    i :| SettledBy(link.shelf, p, i, x);
    if Kind(p).Variable? {
      SyncVariantsKeepsCatalogue(ps, all, durable, link.shelf, p, x, i, plan.variants);
      SmoothProductVariants(ps, all, durable, s, p, plan, i);
    }
    SmoothParts(s, all, p, plan, i, x);
  }

  lemma SmoothProductVariants(ps: seq<OdooProduct>, all: seq<OdooVariant>, durable: Mappings, s: Shelf,
      p: OdooProduct, plan: ProductPlan, i: nat)
    requires CatalogueSound(ps, all, durable, s) && IsSold(ps, p) && IsSmooth(plan)
    requires var link := LinkProduct(s, p, Sku(p), plan);
      link.got.Done? && CatalogueShelf(ps, all, durable, link.shelf) && SettledBy(link.shelf, p, i, link.got.value.woo)
    ensures var link := LinkProduct(s, p, Sku(p), plan);
      var x := link.got.value.woo;
      var after := VariantSync.SyncVariants(link.shelf, VariantSync.ActiveVariants(all, p.id), x, ParentRow(link.shelf, Sku(p)), plan.variants).shelf;
      VariantsDone(s, after, all, p, x)
  {
    var link := LinkProduct(s, p, Sku(p), plan);
    forall v | IsVariantOf(all, v, p)
      ensures VariantSync.Stranded(link.shelf, v, link.got.value.woo) <==> Lost(s, v) {
      StrandedIffLost(ps, all, durable, s, p, plan, v);
    }
    forall v | IsVariantOf(all, v, p) {
      SmoothVariantPart(ps, all, durable, link.shelf, p, link.got.value.woo, i, plan.variants, v);
    }
  }

  lemma SmoothVariantPart(ps: seq<OdooProduct>, all: seq<OdooVariant>, durable: Mappings, s: Shelf, p: OdooProduct,
      x: Id, i: nat, plans: seq<VariantSync.VariantPlan>, v: OdooVariant)
    requires CatalogueShelf(ps, all, durable, s) && SettledBy(s, p, i, x) && VariantSync.AllSmooth(plans) && IsVariantOf(all, v, p)
    ensures var after := VariantSync.SyncVariants(s, VariantSync.ActiveVariants(all, p.id), x, ParentRow(s, Sku(p)), plans).shelf;
      && (VariantSync.Mirrored(after, v, x) <==> !VariantSync.Stranded(s, v, x))
      && (VariantSync.Stranded(s, v, x) ==> VariantSync.Stranded(after, v, x))
  {
    ParentRowIsSettled(s, p, i, x);
    VariantSync.ActiveVariantsAre(all, p.id);
    VariantSync.ActiveVariantsDistinct(all, p.id);
    VariantSync.SmoothVariants(all, durable, s, VariantSync.ActiveVariants(all, p.id), x, ParentRow(s, Sku(p)), plans, v);
  }

  /** A template that is settled, with each variant mirrored or stranded, is left exactly as it is. */
  lemma QuietProduct(ps: seq<OdooProduct>, all: seq<OdooVariant>, durable: Mappings, s: Shelf, p: OdooProduct,
      plan: ProductPlan, i: nat, x: Id)
    requires CatalogueSound(ps, all, durable, s) && IsSold(ps, p) && IsSmooth(plan) && SettledBy(s, p, i, x)
    requires forall v :: IsVariantOf(all, v, p) ==> VariantSync.Mirrored(s, v, x) || VariantSync.Stranded(s, v, x)
    ensures SyncSingleProduct(s, all, p, plan) == ProductReply(s, Action.Updated)
  {
    QuietLink(ps, all, durable, s, p, plan, i, x);
    if Kind(p).Variable? {
      ParentRowIsSettled(s, p, i, x);
      VariantSync.ActiveVariantsAre(all, p.id);
      VariantSync.QuietVariants(all, durable, s, VariantSync.ActiveVariants(all, p.id), x, ParentRow(s, Sku(p)), plan.variants);
    }
  }

  // ---------- the whole pass ----------

  lemma SettledIsUnseen(before: Shelf, after: Shelf, q: OdooProduct, i: nat, x: Id)
    requires SameView(before, after, q) && SettledBy(before, q, i, x)
    ensures SettledBy(after, q, i, x)
  {
  }

  lemma NeedsIsUnseen(before: Shelf, after: Shelf, q: OdooProduct)
    requires SameView(before, after, q)
    ensures NeedsProduct(before, q) <==> NeedsProduct(after, q)
  {
    if NeedsProduct(before, q) {
      forall i: nat, x | Claimed(after.mappings.products, i, q) && LinkedTo(after.mappings.products, i, x)
        ensures x !in after.woo.products {
        assert Claimed(before.mappings.products, i, q) && LinkedTo(before.mappings.products, i, x);
        assert Concerns(before, q, x);
      }
    } else if x :| Carries(before.woo, x, q) {
      assert Concerns(before, q, x);
      assert Carries(after.woo, x, q);
    } else {
      var i: nat, x :| Claimed(before.mappings.products, i, q) && LinkedTo(before.mappings.products, i, x) && x in before.woo.products;
      assert Concerns(before, q, x);
      assert Claimed(after.mappings.products, i, q) && LinkedTo(after.mappings.products, i, x);
    }
  }

  lemma LostIsUnseen(ps: seq<OdooProduct>, all: seq<OdooVariant>, durable: Mappings, before: Shelf, after: Shelf,
      q: OdooProduct, v: OdooVariant)
    requires CatalogueSound(ps, all, durable, before) && CatalogueSound(ps, all, durable, after)
    requires SameView(before, after, q) && VariantSync.SameFor(before, after, v)
    requires IsSold(ps, q) && IsVariantOf(all, v, q)
    ensures Lost(before, v) <==> Lost(after, v)
  {
    var rows := before.mappings.variants;
    var row := VariantSync.VariantRowOf(rows, v);
    VariantSync.FoundRowIsOwned(rows, v);
    VariantSync.FoundRowIsOwned(after.mappings.variants, v);
    forall j: nat | LostBy(before, v, j) || LostBy(after, v, j) ensures row == Some(j) {
      if LostBy(before, v, j) {
        VariantSync.OwnedRowIsFound(all, rows, j, v);
      } else {
        VariantSync.OwnedRowIsFound(all, after.mappings.variants, j, v);
      }
    }
    if row.Some? {
      var parent := rows[row.value].parent;
      assert HomeOf(q, before.mappings, parent);
      assert Claimed(before.mappings.products, parent, q);
      var x := before.mappings.products[parent].woo;
      assert x.Some? ==> LinkedTo(before.mappings.products, parent, x.value);
      assert x.Some? ==> Concerns(before, q, x.value);
      assert LostBy(before, v, row.value) <==> LostBy(after, v, row.value);
    }
  }

  lemma DoneIsUnseen(ps: seq<OdooProduct>, all: seq<OdooVariant>, durable: Mappings, start: Shelf, s: Shelf,
      q: OdooProduct, plan: ProductPlan, p: OdooProduct, i: nat, x: Id)
    requires CatalogueSound(ps, all, durable, s) && q in ps && IsSold(ps, p) && p != q
    requires DoneFor(start, s, all, p, i, x)
    ensures DoneFor(start, SyncSingleProduct(s, all, q, plan).shelf, all, p, i, x)
  {
    var after := SyncSingleProduct(s, all, q, plan).shelf;
    SyncIsUnseen(ps, all, durable, s, q, plan, p);
    SettledIsUnseen(s, after, p, i, x);
    SyncKeepsSound(ps, all, durable, s, q, plan);
    forall v | IsVariantOf(all, v, p)
      ensures VariantSync.Mirrored(after, v, x) <==> !Lost(start, v)
      ensures Lost(start, v) ==> VariantSync.Stranded(after, v, x) {
      SyncIsUnseenByVariant(ps, all, durable, s, q, plan, p, v);
      VariantSync.SameForKeeps(all, s, after, v, x);
    }
  }

  /** After the first k templates: those are done, and the others still see what they saw at the start. */
  ghost predicate Progress(ps: seq<OdooProduct>, all: seq<OdooVariant>, start: Shelf, s: Shelf, k: nat)
    requires k <= |ps|
  {
    && (forall j :: 0 <= j < k && Sku(ps[j]) != "" ==> exists i, x :: DoneFor(start, s, all, ps[j], i, x))
    && (forall j :: k <= j < |ps| && Sku(ps[j]) != "" ==> SameView(start, s, ps[j]))
    && (forall j, v :: k <= j < |ps| && Sku(ps[j]) != "" && IsVariantOf(all, v, ps[j]) ==> VariantSync.SameFor(start, s, v))
  }

  lemma StepUnseen(ps: seq<OdooProduct>, all: seq<OdooVariant>, durable: Mappings, start: Shelf, s: Shelf, k: nat,
      plan: ProductPlan, j: nat)
    requires CatalogueSound(ps, all, durable, s) && k < j < |ps| && Progress(ps, all, start, s, k) && Sku(ps[j]) != ""
    ensures var after := SyncSingleProduct(s, all, ps[k], plan).shelf;
      && SameView(start, after, ps[j])
      && forall v :: IsVariantOf(all, v, ps[j]) ==> VariantSync.SameFor(start, after, v)
  {
    var after := SyncSingleProduct(s, all, ps[k], plan).shelf;
    assert ps[k].id != ps[j].id;
    SyncIsUnseen(ps, all, durable, s, ps[k], plan, ps[j]);
    SameViewTrans(start, s, after, ps[j]);
    forall v | IsVariantOf(all, v, ps[j]) ensures VariantSync.SameFor(start, after, v) {
      SyncIsUnseenByVariant(ps, all, durable, s, ps[k], plan, ps[j], v);
      VariantSync.SameForTrans(start, s, after, v);
    }
  }

  lemma StepDone(ps: seq<OdooProduct>, all: seq<OdooVariant>, durable: Mappings, start: Shelf, s: Shelf, k: nat,
      plan: ProductPlan) returns (i: nat, x: Id)
    requires CatalogueSound(ps, all, durable, start) && CatalogueSound(ps, all, durable, s)
    requires k < |ps| && Progress(ps, all, start, s, k) && Sku(ps[k]) != "" && IsSmooth(plan)
    ensures var r := SyncSingleProduct(s, all, ps[k], plan);
      && DoneFor(start, r.shelf, all, ps[k], i, x)
      && r.action == (if NeedsProduct(start, ps[k]) then Action.Created else Action.Updated)
      && AddedOne(s.woo, r.shelf.woo, NeedsProduct(start, ps[k]))
  {
    i, x := SmoothProduct(ps, all, durable, s, ps[k], plan);
    NeedsIsUnseen(start, s, ps[k]);
    forall v | IsVariantOf(all, v, ps[k]) ensures Lost(start, v) <==> Lost(s, v) {
      LostIsUnseen(ps, all, durable, start, s, ps[k], v);
    }
  }

  lemma StepKeepsDone(ps: seq<OdooProduct>, all: seq<OdooVariant>, durable: Mappings, start: Shelf, s: Shelf, k: nat,
      plan: ProductPlan, j: nat)
    requires CatalogueSound(ps, all, durable, s) && j < k < |ps| && Progress(ps, all, start, s, k) && Sku(ps[j]) != ""
    ensures exists i, x :: DoneFor(start, SyncSingleProduct(s, all, ps[k], plan).shelf, all, ps[j], i, x)
  {
    var i, x :| DoneFor(start, s, all, ps[j], i, x);
    assert ps[j].id != ps[k].id;
    DoneIsUnseen(ps, all, durable, start, s, ps[k], plan, ps[j], i, x);
  }

  lemma ProgressStep(ps: seq<OdooProduct>, all: seq<OdooVariant>, durable: Mappings, start: Shelf, s: Shelf, k: nat,
      plan: ProductPlan)
    requires CatalogueSound(ps, all, durable, start) && CatalogueSound(ps, all, durable, s)
    requires k < |ps| && Progress(ps, all, start, s, k) && IsSmooth(plan)
    ensures Progress(ps, all, start, SyncSingleProduct(s, all, ps[k], plan).shelf, k + 1)
  {
    var after := SyncSingleProduct(s, all, ps[k], plan).shelf;
    forall j | 0 <= j < k + 1 && Sku(ps[j]) != "" ensures exists i, x :: DoneFor(start, after, all, ps[j], i, x) {
      if j == k {
        var i, x := StepDone(ps, all, durable, start, s, k, plan);
      } else {
        StepKeepsDone(ps, all, durable, start, s, k, plan, j);
      }
    }
    forall j | k + 1 <= j < |ps| && Sku(ps[j]) != ""
      ensures SameView(start, after, ps[j])
      ensures forall v :: IsVariantOf(all, v, ps[j]) ==> VariantSync.SameFor(start, after, v) {
      StepUnseen(ps, all, durable, start, s, k, plan, j);
    }
  }

  function WithSku(qs: seq<OdooProduct>): nat {
    if qs == [] then 0 else WithSku(qs[..|qs| - 1]) + if Sku(qs[|qs| - 1]) != "" then 1 else 0
  }

  lemma PassUnfold(start: Shelf, all: seq<OdooVariant>, ps: seq<OdooProduct>, k: nat, plans: seq<ProductPlan>)
    requires 0 < k <= |ps|
    ensures var before := Pass(start, all, ps[..k - 1], plans);
      var reply := SyncSingleProduct(before.shelf, all, ps[k - 1], PlanOf(plans, k - 1));
      var after := Pass(start, all, ps[..k], plans);
      && after.shelf == reply.shelf
      && after.created == before.created + (if reply.action.Created? then 1 else 0)
      && after.updated == before.updated + (if reply.action.Updated? then 1 else 0)
      && after.skipped == before.skipped + (if reply.action.SkippedNoSku? then 1 else 0)
      && after.failed == before.failed + (if reply.action.FailedWith? then 1 else 0)
    ensures Needed(start, ps[..k]) == Needed(start, ps[..k - 1]) + (if Sku(ps[k - 1]) != "" && NeedsProduct(start, ps[k - 1]) then 1 else 0)
    ensures WithSku(ps[..k]) == WithSku(ps[..k - 1]) + (if Sku(ps[k - 1]) != "" then 1 else 0)
  {
    assert ps[..k][..k - 1] == ps[..k - 1] && ps[..k][k - 1] == ps[k - 1];
  }

  lemma {:induction false} PassProgress(ps: seq<OdooProduct>, all: seq<OdooVariant>, durable: Mappings, start: Shelf,
      k: nat, plans: seq<ProductPlan>)
    requires CatalogueSound(ps, all, durable, start) && k <= |ps| && AllSmooth(plans)
    ensures CatalogueSound(ps, all, durable, Pass(start, all, ps[..k], plans).shelf)
    ensures Progress(ps, all, start, Pass(start, all, ps[..k], plans).shelf, k)
  {
    if k == 0 {
      forall q ensures SameView(start, start, q) {
        SameViewRefl(start, q);
      }
      forall v ensures VariantSync.SameFor(start, start, v) {
        VariantSync.SameForRefl(start, v);
      }
    } else {
      PassProgress(ps, all, durable, start, k - 1, plans);
      PassUnfold(start, all, ps, k, plans);
      var s := Pass(start, all, ps[..k - 1], plans).shelf;
      ProgressStep(ps, all, durable, start, s, k - 1, PlanOf(plans, k - 1));
      SyncKeepsSound(ps, all, durable, s, ps[k - 1], PlanOf(plans, k - 1));
    }
  }

  ghost predicate Counted(start: Shelf, r: Summary, needed: nat, withSku: nat, k: nat) {
    && r.created == needed && r.failed == 0
    && r.created + r.updated == withSku
    && r.skipped + withSku == k
    && |r.shelf.woo.products.Keys| == |start.woo.products.Keys| + needed
  }

  lemma OneMoreKey(before: Woo, after: Woo, added: bool)
    requires WooSound(before) && AddedOne(before, after, added)
    ensures |after.products.Keys| == |before.products.Keys| + (if added then 1 else 0)
  {
  }

  lemma CountStep(ps: seq<OdooProduct>, all: seq<OdooVariant>, durable: Mappings, start: Shelf, s: Shelf, k: nat,
      plan: ProductPlan)
    requires CatalogueSound(ps, all, durable, start) && CatalogueSound(ps, all, durable, s)
    requires k < |ps| && Progress(ps, all, start, s, k) && IsSmooth(plan)
    ensures var r := SyncSingleProduct(s, all, ps[k], plan);
      if Sku(ps[k]) == "" then r == ProductReply(s, SkippedNoSku)
      else
        && r.action == (if NeedsProduct(start, ps[k]) then Action.Created else Action.Updated)
        && |r.shelf.woo.products.Keys| == |s.woo.products.Keys| + (if NeedsProduct(start, ps[k]) then 1 else 0)
  {
    if Sku(ps[k]) != "" {
      var i, x := StepDone(ps, all, durable, start, s, k, plan);
      OneMoreKey(s.woo, SyncSingleProduct(s, all, ps[k], plan).shelf.woo, NeedsProduct(start, ps[k]));
    }
  }

  ghost predicate OneMore(start: Shelf, p: OdooProduct, before: Summary, after: Summary) {
    var needs := Sku(p) != "" && NeedsProduct(start, p);
    && after.created == before.created + (if needs then 1 else 0)
    && after.updated == before.updated + (if Sku(p) != "" && !needs then 1 else 0)
    && after.skipped == before.skipped + (if Sku(p) == "" then 1 else 0)
    && after.failed == before.failed
    && |after.shelf.woo.products.Keys| == |before.shelf.woo.products.Keys| + (if needs then 1 else 0)
  }

  lemma CountedGrows(ps: seq<OdooProduct>, start: Shelf, k: nat, before: Summary, after: Summary)
    requires 0 < k <= |ps| && OneMore(start, ps[k - 1], before, after)
    requires Counted(start, before, Needed(start, ps[..k - 1]), WithSku(ps[..k - 1]), k - 1)
    ensures Counted(start, after, Needed(start, ps[..k]), WithSku(ps[..k]), k)
  {
    assert ps[..k][..k - 1] == ps[..k - 1] && ps[..k][k - 1] == ps[k - 1];
  }

  lemma CountOneMore(ps: seq<OdooProduct>, all: seq<OdooVariant>, durable: Mappings, start: Shelf, k: nat,
      plans: seq<ProductPlan>)
    requires CatalogueSound(ps, all, durable, start) && 0 < k <= |ps| && AllSmooth(plans)
    ensures var before := Pass(start, all, ps[..k - 1], plans);
      var after := Pass(start, all, ps[..k], plans);
      OneMore(start, ps[k - 1], before, after)
  {
    PassProgress(ps, all, durable, start, k - 1, plans);
    PassUnfold(start, all, ps, k, plans);
    CountStep(ps, all, durable, start, Pass(start, all, ps[..k - 1], plans).shelf, k - 1, PlanOf(plans, k - 1));
  }

  /** A run without failures creates exactly the products that are missing, and counts every template once. */
  lemma {:induction false} PassCounts(ps: seq<OdooProduct>, all: seq<OdooVariant>, durable: Mappings, start: Shelf,
      k: nat, plans: seq<ProductPlan>)
    requires CatalogueSound(ps, all, durable, start) && k <= |ps| && AllSmooth(plans)
    ensures Counted(start, Pass(start, all, ps[..k], plans), Needed(start, ps[..k]), WithSku(ps[..k]), k)
  {
    if k > 0 {
      PassCounts(ps, all, durable, start, k - 1, plans);
      CountOneMore(ps, all, durable, start, k, plans);
      CountedGrows(ps, start, k, Pass(start, all, ps[..k - 1], plans), Pass(start, all, ps[..k], plans));
    }
  }

  lemma PassLast(s: Shelf, all: seq<OdooVariant>, qs: seq<OdooProduct>, plans: seq<ProductPlan>)
    requires qs != []
    ensures var n := |qs| - 1;
      Pass(s, all, qs, plans).shelf == SyncSingleProduct(Pass(s, all, qs[..n], plans).shelf, all, qs[n], PlanOf(plans, n)).shelf
  {
  }

  /** Any pass, whatever fails in it, keeps what was inherited. */
  lemma {:induction false} PassInherits(ps: seq<OdooProduct>, all: seq<OdooVariant>, durable: Mappings, origin: Shelf,
      s: Shelf, qs: seq<OdooProduct>, plans: seq<ProductPlan>)
    requires CatalogueSound(ps, all, durable, s) && Inherits(ps, origin, durable, s) && forall q :: q in qs ==> q in ps
    ensures Inherits(ps, origin, durable, Pass(s, all, qs, plans).shelf)
  {
    if qs != [] {
      var n := |qs| - 1;
      var before := Pass(s, all, qs[..n], plans).shelf;
      assert Inherits(ps, origin, durable, before) by {
        PassInherits(ps, all, durable, origin, s, qs[..n], plans);
      }
      assert Inherits(ps, origin, durable, SyncSingleProduct(before, all, qs[n], PlanOf(plans, n)).shelf) by {
        PassKeepsSound(ps, all, durable, s, qs[..n], plans);
        SyncInherits(ps, all, origin, durable, before, qs[n], PlanOf(plans, n));
      }
      PassLast(s, all, qs, plans);
    }
  }

  lemma AllDone(ps: seq<OdooProduct>, all: seq<OdooVariant>, start: Shelf, s: Shelf)
    requires Progress(ps, all, start, s, |ps|)
    ensures forall p :: IsSold(ps, p) ==> exists i, x :: DoneFor(start, s, all, p, i, x)
    ensures AllLinked(ps, s)
  {
    forall p | IsSold(ps, p) ensures exists i, x :: DoneFor(start, s, all, p, i, x) && SettledBy(s, p, i, x) {
      var j :| 0 <= j < |ps| && ps[j] == p;
      var i, x :| DoneFor(start, s, all, ps[j], i, x);
      assert SettledBy(s, p, i, x);
    }
  }

  lemma PassAdopts(ps: seq<OdooProduct>, all: seq<OdooVariant>, start: Shelf, plans: seq<ProductPlan>)
    requires CatalogueSound(ps, all, start.mappings, start) && AllSmooth(plans)
    ensures Adopts(ps, start, Pass(start, all, ps, plans).shelf)
  {
    assert ps[..|ps|] == ps;
    InheritsRefl(ps, start);
    PassInherits(ps, all, start.mappings, start, start, ps, plans);
    PassProgress(ps, all, start.mappings, start, |ps|, plans);
    AllDone(ps, all, start, Pass(start, all, ps, plans).shelf);
    SettledHeritage(ps, all, start, start.mappings, Pass(start, all, ps, plans).shelf);
  }

  /** Convergence: from any conflict-free state a pass without failures leaves every template with a SKU settled: on
      a product that was its business, if there was one living, else on a new one; the other products of the
      shop are untouched, and exactly the missing ones are made.  Every variant that was not lost is mirrored. */
  lemma Converges(ps: seq<OdooProduct>, all: seq<OdooVariant>, durable: Mappings, start: Shelf, plans: seq<ProductPlan>)
    requires CatalogueSound(ps, all, durable, start) && AllSmooth(plans)
    ensures var r := Pass(start, all, ps, plans);
      && CatalogueSound(ps, all, durable, r.shelf)
      && (forall p :: IsSold(ps, p) ==> exists i, x :: DoneFor(start, r.shelf, all, p, i, x))
      && Adopts(ps, start, r.shelf)
      && |r.shelf.woo.products.Keys| == |start.woo.products.Keys| + Needed(start, ps)
      && r.created == Needed(start, ps) && r.failed == 0
      && r.created + r.updated + r.skipped == |ps|
  {
    assert ps[..|ps|] == ps;
    PassProgress(ps, all, durable, start, |ps|, plans);
    PassCounts(ps, all, durable, start, |ps|, plans);
    AllDone(ps, all, start, Pass(start, all, ps, plans).shelf);
    PassAdopts(ps, all, start, plans);
  }

  /** In a converged state the row and the product of a SKU are the only ones. */
  lemma OneRowOneProduct(ps: seq<OdooProduct>, all: seq<OdooVariant>, durable: Mappings, s: Shelf, p: OdooProduct,
      i: nat, x: Id)
    requires CatalogueSound(ps, all, durable, s) && IsSold(ps, p) && SettledBy(s, p, i, x)
    ensures ProductsOfSku(s.mappings.products, Sku(p)) == {i}
    ensures ProductsOfOdoo(s.mappings.products, p.id) == {i}
    ensures Unrivalled(ps, s) ==> ProductsWithSku(s.woo, Sku(p)) == {x}
  {
    forall j | j in s.mappings.products && (s.mappings.products[j].sku == Sku(p) || s.mappings.products[j].odoo == p.id)
      ensures j == i {
      assert Claims(p, s.mappings.products[j]) && Claims(p, s.mappings.products[i]);
    }
    assert x in ProductsWithSku(s.woo, Sku(p));
    forall y | Unrivalled(ps, s) && y in ProductsWithSku(s.woo, Sku(p)) ensures y == x {
      assert Carries(s.woo, y, p) && Carries(s.woo, x, p);
      assert Concerns(s, p, x) && Concerns(s, p, y);
    }
  }

  /** Quiescence: once every template is settled and every variant mirrored or stranded, a further
      pass creates nothing and changes neither a row nor the shop. */
  ghost predicate AllSettled(ps: seq<OdooProduct>, all: seq<OdooVariant>, s: Shelf) {
    forall p :: IsSold(ps, p) ==> exists i, x ::
      && SettledBy(s, p, i, x)
      && forall v :: IsVariantOf(all, v, p) ==> VariantSync.Mirrored(s, v, x) || VariantSync.Stranded(s, v, x)
  }

  lemma QuietStep(ps: seq<OdooProduct>, all: seq<OdooVariant>, durable: Mappings, s: Shelf, p: OdooProduct,
      plan: ProductPlan)
    requires CatalogueSound(ps, all, durable, s) && AllSettled(ps, all, s) && p in ps && IsSmooth(plan)
    ensures SyncSingleProduct(s, all, p, plan) == ProductReply(s, if Sku(p) != "" then Action.Updated else SkippedNoSku)
  {
    if Sku(p) != "" {
      assert IsSold(ps, p);
      var i, x :|
        && SettledBy(s, p, i, x)
        && forall v :: IsVariantOf(all, v, p) ==> VariantSync.Mirrored(s, v, x) || VariantSync.Stranded(s, v, x);
      QuietProduct(ps, all, durable, s, p, plan, i, x);
    }
  }

  lemma {:induction false} Quiet(ps: seq<OdooProduct>, all: seq<OdooVariant>, durable: Mappings, s: Shelf, k: nat,
      plans: seq<ProductPlan>)
    requires CatalogueSound(ps, all, durable, s) && AllSettled(ps, all, s) && AllSmooth(plans) && k <= |ps|
    ensures var r := Pass(s, all, ps[..k], plans);
      r.shelf == s && r.created == r.failed == 0 && r.updated == WithSku(ps[..k])
  {
    if k > 0 {
      Quiet(ps, all, durable, s, k - 1, plans);
      PassUnfold(s, all, ps, k, plans);
      QuietStep(ps, all, durable, s, ps[k - 1], PlanOf(plans, k - 1));
    }
  }

  lemma DoneIsSettled(ps: seq<OdooProduct>, all: seq<OdooVariant>, start: Shelf, s: Shelf)
    requires forall p :: IsSold(ps, p) ==> exists i, x :: DoneFor(start, s, all, p, i, x)
    ensures AllSettled(ps, all, s)
  {
    forall p | IsSold(ps, p)
      ensures exists i, x ::
        && SettledBy(s, p, i, x)
        && forall v :: IsVariantOf(all, v, p) ==> VariantSync.Mirrored(s, v, x) || VariantSync.Stranded(s, v, x) {
      var i, x :| DoneFor(start, s, all, p, i, x);
    }
  }

  /** The second of two passes without failures changes nothing. */
  lemma SecondPassIsQuiet(ps: seq<OdooProduct>, all: seq<OdooVariant>, durable: Mappings, start: Shelf,
      first: seq<ProductPlan>, second: seq<ProductPlan>)
    requires CatalogueSound(ps, all, durable, start) && AllSmooth(first) && AllSmooth(second)
    ensures var once := Pass(start, all, ps, first).shelf;
      var twice := Pass(once, all, ps, second);
      twice.shelf == once && twice.created == 0 && twice.failed == 0
  {
    var once := Pass(start, all, ps, first).shelf;
    assert CatalogueSound(ps, all, durable, once) && AllSettled(ps, all, once) by {
      Converges(ps, all, durable, start, first);
      DoneIsSettled(ps, all, start, once);
    }
    assert ps[..|ps|] == ps;
    Quiet(ps, all, durable, once, |ps|, second);
  }
}
