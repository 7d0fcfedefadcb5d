/** When no two variations of a product share a SKU: always, but for a creation that takes effect while there is one. */
module VariationSkus {
  import opened Outcomes
  import opened Tables
  import opened WooApi
  import opened VariantSync
  import opened ProductSync
  import CatalogueFrames
  import CataloguePass

  /** z is a variation of the product with the SKU of v. */
  ghost predicate Bears(woo: Woo, z: Id, product: Id, v: OdooVariant) {
    z in woo.variations && woo.variations[z].parent == product && woo.variations[z].sku == v.code
  }

  ghost predicate UniqueVariations(all: seq<OdooVariant>, woo: Woo) {
    forall product, y, z, v :: IsListed(all, v) && Bears(woo, y, product, v) && Bears(woo, z, product, v) ==> y == z
  }

  /** A row linked to a living variation has no rival for the SKU of its variant under the same product. */
  ghost predicate NoRivalVariations(all: seq<OdooVariant>, rows: map<nat, VariantRow>, woo: Woo) {
    forall i, v, y :: i in rows && IsListed(all, v) && Owns(v, rows[i]) && rows[i].woo.Some? && rows[i].woo.value in woo.variations ==>
      Bears(woo, y, woo.variations[rows[i].woo.value].parent, v) ==> y == rows[i].woo.value
  }

  /** For the rows of the session and for those a rollback may bring back. */
  ghost predicate SkusUnique(all: seq<OdooVariant>, durable: Mappings, s: Shelf) {
    && UniqueVariations(all, s.woo)
    && NoRivalVariations(all, s.mappings.variants, s.woo)
    && NoRivalVariations(all, durable.variants, s.woo)
  }

  /** v has no row, and the lookup finds nothing, or fails, which is taken for "not found": a variation is created. */
  ghost predicate CreatesVariation(s: Shelf, v: OdooVariant, product: Id, plan: VariantPlan) {
    && v.code != "" && plan.build.None? && VariantRowOf(s.mappings.variants, v).None?
    && (plan.listingFails || VariationsUnder(s.woo, product, v.code) == {})
  }

  /** The guard of the one branch that can make a second variation: a send of the creation takes effect while the
      product has a variation with this SKU, found there by no lookup or made by an earlier send. */
  ghost predicate Doubles(s: Shelf, v: OdooVariant, product: Id, plan: VariantPlan) {
    && CreatesVariation(s, v, product, plan)
    && (if VariationsUnder(s.woo, product, v.code) != {} then 1 else 2) <= plan.create.Effects()
  }

  // ---------- one variant ----------

  lemma CreationAdds(woo: Woo, product: Id, v: OdooVariant, posting: Posting)
    requires WooSound(woo) && product in woo.products
    ensures var made := NextIds(woo.nextVariation, posting.Effects());
      && made !! woo.variations.Keys
      && VariationsUnder(CreateVariation(woo, product, v.code, v.data, posting).woo, product, v.code)
         == VariationsUnder(woo, product, v.code) + made
  {
    var after := MakeVariations(woo, product, v.code, v.data, posting.Effects());
    var made := NextIds(woo.nextVariation, posting.Effects());
    forall z ensures z in VariationsUnder(after, product, v.code) <==> z in VariationsUnder(woo, product, v.code) || z in made {
    }
  }

  /** In that branch the product ends with as many more variations of the same SKU as sends took effect. */
  lemma DoublesAdds(all: seq<OdooVariant>, durable: Mappings, s: Shelf, v: OdooVariant, product: Id, parent: nat,
      plan: VariantPlan)
    requires VariantShelf(all, durable, s) && RightPlace(s, product, parent) && IsListed(all, v)
    requires Doubles(s, v, product, plan)
    ensures var after := SyncVariant(s, v, product, parent, plan).shelf.woo;
      && |VariationsUnder(after, product, v.code)| == |VariationsUnder(s.woo, product, v.code)| + plan.create.Effects()
      && !UniqueVariations(all, after)
  {
    CreationAdds(s.woo, product, v, plan.create);
    var before := VariationsUnder(s.woo, product, v.code);
    var after := SyncVariant(s, v, product, parent, plan).shelf.woo;
    var next := s.woo.nextVariation;
    assert next in VariationsUnder(after, product, v.code);
    var z := if before != {} then Least(before) else next + 1;
    assert z in VariationsUnder(after, product, v.code) && z != next;
    assert Bears(after, z, product, v) && Bears(after, next, product, v);
  }

  /** Writing v's payload to the variation z, which is v's own or bears its SKU already, for every table of rows. */
  lemma WriteKeepsUnique(all: seq<OdooVariant>, woo: Woo, after: Woo, v: OdooVariant, product: Id, z: Id)
    requires DistinctVariants(all) && IsListed(all, v) && UniqueVariations(all, woo)
    requires z in woo.variations && woo.variations[z].parent == product
    requires after.variations == woo.variations[z := Variation(product, v.code, v.data)]
    requires forall y :: Bears(woo, y, product, v) ==> y == z
    ensures UniqueVariations(all, after)
    ensures forall x, y, u :: IsListed(all, u) && Bears(after, y, x, u) ==>
      Bears(woo, y, x, u) || (y == z && x == product && u == v)
  {
    forall x, y, u | IsListed(all, u) && Bears(after, y, x, u) ensures Bears(woo, y, x, u) || (y == z && x == product && u == v) {
    }
    forall x, y, y', u | IsListed(all, u) && Bears(after, y, x, u) && Bears(after, y', x, u) ensures y == y' {
      if u == v {
        assert y == z || Bears(woo, y, x, u);
      }
    }
  }

  /** Rows linked to z belong to v, so nobody else's variation gets a rival. */
  lemma WriteMakesNoRivals(all: seq<OdooVariant>, rows: map<nat, VariantRow>, woo: Woo, after: Woo, v: OdooVariant,
      product: Id, z: Id)
    requires NoRivalVariations(all, rows, woo)
    requires z in woo.variations && woo.variations[z].parent == product
    requires after.variations == woo.variations[z := Variation(product, v.code, v.data)]
    requires forall y :: Bears(woo, y, product, v) ==> y == z
    requires forall x, y, u :: IsListed(all, u) && Bears(after, y, x, u) ==>
      Bears(woo, y, x, u) || (y == z && x == product && u == v)
    requires forall i :: i in rows && Owns(v, rows[i]) && rows[i].woo.Some? && rows[i].woo.value in woo.variations ==>
      rows[i].woo.value == z
    ensures NoRivalVariations(all, rows, after)
  {
  }

  lemma MakeKeepsUnique(all: seq<OdooVariant>, woo: Woo, v: OdooVariant, product: Id, posting: Posting)
    requires posting.Effects() <= 1
    requires DistinctVariants(all) && IsListed(all, v) && UniqueVariations(all, woo) && WooSound(woo)
    requires VariationsUnder(woo, product, v.code) == {}
    ensures var after := CreateVariation(woo, product, v.code, v.data, posting).woo;
      && UniqueVariations(all, after)
      && forall x, y, u :: IsListed(all, u) && Bears(after, y, x, u) ==>
           Bears(woo, y, x, u) || (y == woo.nextVariation && x == product && u == v)
  {
    var after := CreateVariation(woo, product, v.code, v.data, posting).woo;
    forall y ensures !Bears(woo, y, product, v) {
      assert Bears(woo, y, product, v) ==> y in VariationsUnder(woo, product, v.code);
    }
    forall x, y, u | IsListed(all, u) && Bears(after, y, x, u)
      ensures Bears(woo, y, x, u) || (y == woo.nextVariation && x == product && u == v) {
    }
    forall x, y, y', u | IsListed(all, u) && Bears(after, y, x, u) && Bears(after, y', x, u) ensures y == y' {
      assert u == v && x == product ==> !Bears(woo, y, x, u) && !Bears(woo, y', x, u);
    }
  }

  lemma MakeMakesNoRivals(all: seq<OdooVariant>, rows: map<nat, VariantRow>, woo: Woo, v: OdooVariant, product: Id,
      posting: Posting)
    requires NoRivalVariations(all, rows, woo) && WooSound(woo)
    requires forall i :: i in rows && Owns(v, rows[i]) && rows[i].woo.Some? ==> rows[i].woo.value !in woo.variations
    requires forall i :: i in rows && rows[i].woo.Some? ==> rows[i].woo.value < woo.nextVariation
    requires var after := CreateVariation(woo, product, v.code, v.data, posting).woo;
      forall x, y, u :: IsListed(all, u) && Bears(after, y, x, u) ==>
        Bears(woo, y, x, u) || (y == woo.nextVariation && x == product && u == v)
    ensures NoRivalVariations(all, rows, CreateVariation(woo, product, v.code, v.data, posting).woo)
  {
  }

  /** A variant with a row: its variation has no rival, and a durable row of the variant that is linked to a living
      variation is linked to the same one. */
  lemma LinkedKeepsUnique(all: seq<OdooVariant>, durable: Mappings, s: Shelf, v: OdooVariant, product: Id,
      call: Call, i: nat)
    requires VariantShelf(all, durable, s) && IsListed(all, v) && SkusUnique(all, durable, s)
    requires i in s.mappings.variants && Owns(v, s.mappings.variants[i])
    ensures var z := s.mappings.variants[i].woo.value;
      SkusUnique(all, durable, s.(woo := UpdateVariation(s.woo, product, z, v.code, v.data, call).woo))
  {
    var z := s.mappings.variants[i].woo.value;
    var after := UpdateVariation(s.woo, product, z, v.code, v.data, call).woo;
    if call.TookEffect() && z in s.woo.variations && s.woo.variations[z].parent == product {
      WriteKeepsUnique(all, s.woo, after, v, product, z);
      forall j | j in durable.variants && Owns(v, durable.variants[j]) && durable.variants[j].woo.Some?
        && durable.variants[j].woo.value in s.woo.variations ensures durable.variants[j].woo.value == z {
        assert Owns(v, s.mappings.variants[j]);
      }
      WriteMakesNoRivals(all, s.mappings.variants, s.woo, after, v, product, z);
      WriteMakesNoRivals(all, durable.variants, s.woo, after, v, product, z);
    } else {
      assert after == s.woo;
    }
  }

  /** Rows that differ in their states only have the same rivals. */
  lemma SameLinksSameRivals(all: seq<OdooVariant>, before: map<nat, VariantRow>, after: map<nat, VariantRow>, woo: Woo)
    requires NoRivalVariations(all, before, woo) && SameLinks(before, after)
    ensures NoRivalVariations(all, after, woo)
  {
    forall i, v, y | i in after && IsListed(all, v) && Owns(v, after[i]) && after[i].woo.Some? && after[i].woo.value in woo.variations
      && Bears(woo, y, woo.variations[after[i].woo.value].parent, v) ensures y == after[i].woo.value {
      assert Owns(v, before[i]) && before[i].woo == after[i].woo;
    }
  }

  /** A new row for v, linked to the only variation that bears its SKU. */
  lemma NewRowHasNoRivals(all: seq<OdooVariant>, rows: map<nat, VariantRow>, woo: Woo, n: nat, r: VariantRow, v: OdooVariant)
    requires DistinctVariants(all) && NoRivalVariations(all, rows, woo) && UniqueVariations(all, woo)
    requires IsListed(all, v) && r.odoo == v.id && r.sku == v.code && r.woo.Some?
    requires r.woo.value in woo.variations && woo.variations[r.woo.value].sku == v.code
    ensures NoRivalVariations(all, rows[n := r], woo)
  {
    var x := woo.variations[r.woo.value].parent;
    assert Bears(woo, r.woo.value, x, v);
    forall u | IsListed(all, u) && Owns(u, r) ensures u == v {
    }
  }

  /** A variant without a row has no durable row linked to a living variation either. */
  lemma NoRowNoLink(all: seq<OdooVariant>, durable: Mappings, s: Shelf, v: OdooVariant)
    requires VariantShelf(all, durable, s) && VariantRowOf(s.mappings.variants, v).None?
    ensures forall i :: i in s.mappings.variants ==> !Owns(v, s.mappings.variants[i])
    ensures forall i :: i in durable.variants && Owns(v, durable.variants[i]) && durable.variants[i].woo.Some? ==>
      durable.variants[i].woo.value !in s.woo.variations
  {
    FoundRowIsOwned(s.mappings.variants, v);
  }

  lemma AttachedHasNoRivals(all: seq<OdooVariant>, durable: Mappings, s: Shelf, v: OdooVariant, parent: nat, z: Id)
    requires DistinctVariants(all) && IsListed(all, v) && SkusUnique(all, durable, s)
    requires z in s.woo.variations && s.woo.variations[z].sku == v.code
    ensures SkusUnique(all, durable, AttachVariation(s, None, v, parent, z))
  {
    NewRowHasNoRivals(all, s.mappings.variants, s.woo, s.nextVariantRow,
      VariantRow(parent, v.id, Some(z), v.code, SyncStatus.Synced), v);
  }

  lemma AdoptKeepsUnique(all: seq<OdooVariant>, durable: Mappings, s: Shelf, v: OdooVariant, product: Id, call: Call, z: Id)
    requires VariantShelf(all, durable, s) && IsListed(all, v) && SkusUnique(all, durable, s)
    requires VariantRowOf(s.mappings.variants, v).None? && Bears(s.woo, z, product, v)
    ensures SkusUnique(all, durable, s.(woo := UpdateVariation(s.woo, product, z, v.code, v.data, call).woo))
  {
    NoRowNoLink(all, durable, s, v);
    var after := UpdateVariation(s.woo, product, z, v.code, v.data, call).woo;
    if call.TookEffect() {
      WriteKeepsUnique(all, s.woo, after, v, product, z);
      WriteMakesNoRivals(all, s.mappings.variants, s.woo, after, v, product, z);
      WriteMakesNoRivals(all, durable.variants, s.woo, after, v, product, z);
    }
  }

  lemma CreateKeepsUnique(all: seq<OdooVariant>, durable: Mappings, s: Shelf, v: OdooVariant, product: Id,
      posting: Posting)
    requires posting.Effects() <= 1
    requires VariantShelf(all, durable, s) && IsListed(all, v) && SkusUnique(all, durable, s)
    requires VariantRowOf(s.mappings.variants, v).None? && VariationsUnder(s.woo, product, v.code) == {}
    ensures SkusUnique(all, durable, s.(woo := CreateVariation(s.woo, product, v.code, v.data, posting).woo))
  {
    NoRowNoLink(all, durable, s, v);
    MakeKeepsUnique(all, s.woo, v, product, posting);
    MakeMakesNoRivals(all, s.mappings.variants, s.woo, v, product, posting);
    MakeMakesNoRivals(all, durable.variants, s.woo, v, product, posting);
  }

  lemma NewLinkKeepsUnique(all: seq<OdooVariant>, durable: Mappings, s: Shelf, v: OdooVariant, product: Id,
      parent: nat, plan: VariantPlan)
    requires VariantShelf(all, durable, s) && RightPlace(s, product, parent) && IsListed(all, v) && SkusUnique(all, durable, s)
    requires VariantRowOf(s.mappings.variants, v).None? && plan.build.None? && !Doubles(s, v, product, plan)
    ensures SkusUnique(all, durable, AdoptOrCreate(s, None, v, product, parent, plan).shelf)
  {
    var found := if plan.listingFails then None else Chosen(VariationsUnder(s.woo, product, v.code), plan.preferred);
    if found.Some? {
      AdoptedKeepsUnique(all, durable, s, v, product, parent, plan, found.value);
    } else {
      CreatedKeepsUnique(all, durable, s, v, product, parent, plan);
    }
  }

  lemma AdoptedKeepsUnique(all: seq<OdooVariant>, durable: Mappings, s: Shelf, v: OdooVariant, product: Id,
      parent: nat, plan: VariantPlan, z: Id)
    requires VariantShelf(all, durable, s) && IsListed(all, v) && SkusUnique(all, durable, s)
    requires VariantRowOf(s.mappings.variants, v).None?
    requires !plan.listingFails && Chosen(VariationsUnder(s.woo, product, v.code), plan.preferred) == Some(z)
    ensures SkusUnique(all, durable, AdoptOrCreate(s, None, v, product, parent, plan).shelf)
  {
    AdoptKeepsUnique(all, durable, s, v, product, plan.adopt, z);
    var reply := UpdateVariation(s.woo, product, z, v.code, v.data, plan.adopt);
    if reply.got.Done? {
      AttachedHasNoRivals(all, durable, s.(woo := reply.woo), v, parent, z);
    }
  }

  lemma CreatedKeepsUnique(all: seq<OdooVariant>, durable: Mappings, s: Shelf, v: OdooVariant, product: Id,
      parent: nat, plan: VariantPlan)
    requires VariantShelf(all, durable, s) && RightPlace(s, product, parent) && IsListed(all, v) && SkusUnique(all, durable, s)
    requires VariantRowOf(s.mappings.variants, v).None? && plan.build.None? && !Doubles(s, v, product, plan)
    requires plan.listingFails || VariationsUnder(s.woo, product, v.code) == {}
    ensures SkusUnique(all, durable, AdoptOrCreate(s, None, v, product, parent, plan).shelf)
  {
    var reply := CreateVariation(s.woo, product, v.code, v.data, plan.create);
    if plan.create.Effects() == 1 {
      CreateKeepsUnique(all, durable, s, v, product, plan.create);
      if reply.got.Done? {
        AttachedHasNoRivals(all, durable, s.(woo := reply.woo), v, parent, reply.got.value);
      }
    }
  }

  lemma RowKeepsUnique(all: seq<OdooVariant>, durable: Mappings, s: Shelf, v: OdooVariant, product: Id, parent: nat,
      plan: VariantPlan, i: nat)
    requires VariantShelf(all, durable, s) && IsListed(all, v) && SkusUnique(all, durable, s) && plan.build.None?
    requires VariantRowOf(s.mappings.variants, v) == Some(i)
    ensures SkusUnique(all, durable, SyncVariant(s, v, product, parent, plan).shelf)
  {
    FoundRowIsOwned(s.mappings.variants, v);
    LinkedKeepsUnique(all, durable, s, v, product, plan.update, i);
    var z := s.mappings.variants[i].woo.value;
    var reply := UpdateVariation(s.woo, product, z, v.code, v.data, plan.update);
    if reply.got.Done? {
      SameLinksSameRivals(all, s.mappings.variants,
        AttachVariation(s.(woo := reply.woo), Some(i), v, parent, z).mappings.variants, reply.woo);
    }
  }

  /** Whatever fails while v is synced, repeated sends and lost answers of the creation included: variation SKUs stay
      unique exactly if the guard of that one branch does not fire. */
  lemma UniqueUnlessDoubled(all: seq<OdooVariant>, durable: Mappings, s: Shelf, v: OdooVariant, product: Id,
      parent: nat, plan: VariantPlan)
    requires VariantShelf(all, durable, s) && RightPlace(s, product, parent) && v in all && v.active
    requires SkusUnique(all, durable, s)
    ensures SkusUnique(all, durable, SyncVariant(s, v, product, parent, plan).shelf) <==> !Doubles(s, v, product, plan)
  {
    if Doubles(s, v, product, plan) {
      DoublesAdds(all, durable, s, v, product, parent, plan);
    } else if v.code != "" && plan.build.None? {
      FoundRowIsOwned(s.mappings.variants, v);
      var row := VariantRowOf(s.mappings.variants, v);
      if row.Some? {
        RowKeepsUnique(all, durable, s, v, product, parent, plan, row.value);
      } else {
        NewLinkKeepsUnique(all, durable, s, v, product, parent, plan);
      }
    }
  }

  // ---------- lists, templates, passes ----------

  ghost predicate VariantsDouble(s: Shelf, vs: seq<OdooVariant>, product: Id, parent: nat, plans: seq<VariantPlan>) {
    vs != [] &&
    var n := |vs| - 1;
    || VariantsDouble(s, vs[..n], product, parent, plans)
    || Doubles(SyncVariants(s, vs[..n], product, parent, plans).shelf, vs[n], product, VariantSync.PlanOf(plans, n))
  }

  lemma {:induction false} ListKeepsUnique(all: seq<OdooVariant>, durable: Mappings, s: Shelf, vs: seq<OdooVariant>,
      product: Id,
      parent: nat, plans: seq<VariantPlan>)
    requires VariantShelf(all, durable, s) && RightPlace(s, product, parent) && SkusUnique(all, durable, s)
    requires forall v :: v in vs ==> v in all && v.active
    requires !VariantsDouble(s, vs, product, parent, plans)
    ensures SkusUnique(all, durable, SyncVariants(s, vs, product, parent, plans).shelf)
  {
    if vs != [] {
      var n := |vs| - 1;
      var before := SyncVariants(s, vs[..n], product, parent, plans).shelf;
      assert VariantShelf(all, durable, before) && RightPlace(before, product, parent) by {
        SyncVariantsKeeps(all, durable, s, vs[..n], product, parent, plans);
      }
      assert SkusUnique(all, durable, before) by {
        ListKeepsUnique(all, durable, s, vs[..n], product, parent, plans);
      }
      UniqueUnlessDoubled(all, durable, before, vs[n], product, parent, VariantSync.PlanOf(plans, n));
      LastStep(s, vs, product, parent, plans);
    }
  }

  /** The variants of a template are synced only once it is linked. */
  ghost predicate TemplateDoubles(s: Shelf, all: seq<OdooVariant>, p: OdooProduct, plan: ProductPlan) {
    && ResolvedSku(p, plan) != "" && plan.build.None? && Kind(p).Variable? && plan.fetchVariants.None?
    && var link := LinkProduct(s, p, Sku(p), plan);
    && link.got.Done?
    && VariantsDouble(link.shelf, ActiveVariants(all, p.id), link.got.value.woo, ParentRow(link.shelf, Sku(p)), plan.variants)
  }

  lemma FewerRowsFewerRivals(all: seq<OdooVariant>, durable: Mappings, s: Shelf, after: Shelf)
    requires SkusUnique(all, durable, s) && after.woo.variations == s.woo.variations
    requires forall i :: i in after.mappings.variants ==>
      i in s.mappings.variants && after.mappings.variants[i] == s.mappings.variants[i]
    ensures SkusUnique(all, durable, after)
  {
    forall z, x, v ensures Bears(after.woo, z, x, v) <==> Bears(s.woo, z, x, v) {
    }
  }

  lemma LinkKeepsUnique(all: seq<OdooVariant>, durable: Mappings, s: Shelf, p: OdooProduct, plan: ProductPlan)
    requires SkusUnique(all, durable, s)
    ensures SkusUnique(all, durable, LinkProduct(s, p, Sku(p), plan).shelf)
  {
    CatalogueFrames.LinkingAndVariants(s, p, plan);
    FewerRowsFewerRivals(all, durable, s, LinkProduct(s, p, Sku(p), plan).shelf);
  }

  lemma SettledKeepsUnique(ps: seq<OdooProduct>, all: seq<OdooVariant>, durable: Mappings, s: Shelf, p: OdooProduct,
      x: Id, plans: seq<VariantPlan>)
    requires CatalogueShelf(ps, all, durable, s) && SkusUnique(all, durable, s) && exists i :: SettledBy(s, p, i, x)
    requires !VariantsDouble(s, ActiveVariants(all, p.id), x, ParentRow(s, Sku(p)), plans)
    ensures SkusUnique(all, durable, SyncVariants(s, ActiveVariants(all, p.id), x, ParentRow(s, Sku(p)), plans).shelf)
  {
    var i :| SettledBy(s, p, i, x);
    ParentRowIsSettled(s, p, i, x);
    ActiveVariantsAre(all, p.id);
    ListKeepsUnique(all, durable, s, ActiveVariants(all, p.id), x, ParentRow(s, Sku(p)), plans);
  }

  lemma TemplateKeepsUnique(ps: seq<OdooProduct>, all: seq<OdooVariant>, durable: Mappings, s: Shelf, p: OdooProduct,
      plan: ProductPlan)
    requires CatalogueShelf(ps, all, durable, s) && SkusUnique(all, durable, s) && p in ps
    requires !TemplateDoubles(s, all, p, plan)
    ensures SkusUnique(all, durable, SyncSingleProduct(s, all, p, plan).shelf)
  {
    var end := SyncSingleProduct(s, all, p, plan).shelf;
    if ResolvedSku(p, plan) == "" || plan.build.Some? {
      FewerRowsFewerRivals(all, durable, s, end);
    } else {
      var link := LinkProduct(s, p, Sku(p), plan);
      LinkKeepsUnique(all, durable, s, p, plan);
      if link.got.Done? && Kind(p).Variable? && plan.fetchVariants.None? {
        LinkProductGood(ps, all, durable, s, p, plan);
        SettledKeepsUnique(ps, all, durable, link.shelf, p, link.got.value.woo, plan.variants);
      } else {
        FewerRowsFewerRivals(all, durable, link.shelf, end);
      }
    }
  }

  ghost predicate PassDoubles(s: Shelf, all: seq<OdooVariant>, qs: seq<OdooProduct>, plans: seq<ProductPlan>) {
    qs != [] &&
    var n := |qs| - 1;
    || PassDoubles(s, all, qs[..n], plans)
    || TemplateDoubles(CataloguePass.Pass(s, all, qs[..n], plans).shelf, all, qs[n], CataloguePass.PlanOf(plans, n))
  }

  lemma {:induction false} PassKeepsUnique(ps: seq<OdooProduct>, all: seq<OdooVariant>, durable: Mappings, s: Shelf,
      qs: seq<OdooProduct>, plans: seq<ProductPlan>)
    requires CatalogueFrames.CatalogueSound(ps, all, durable, s) && SkusUnique(all, durable, s) && forall q :: q in qs ==> q in ps
    requires !PassDoubles(s, all, qs, plans)
    ensures SkusUnique(all, durable, CataloguePass.Pass(s, all, qs, plans).shelf)
  {
    if qs != [] {
      var n := |qs| - 1;
      var before := CataloguePass.Pass(s, all, qs[..n], plans).shelf;
      assert SkusUnique(all, durable, before) by {
        PassKeepsUnique(ps, all, durable, s, qs[..n], plans);
      }
      assert SkusUnique(all, durable, SyncSingleProduct(before, all, qs[n], CataloguePass.PlanOf(plans, n)).shelf) by {
        CataloguePass.PassKeepsSound(ps, all, durable, s, qs[..n], plans);
        TemplateKeepsUnique(ps, all, durable, before, qs[n], CataloguePass.PlanOf(plans, n));
      }
      CataloguePass.PassLast(s, all, qs, plans);
    }
  }
}
