/** Turning WooCommerce line items into Odoo order lines by their SKU. */
module OrderLines {
  import opened Outcomes
  import opened Tables
  import opened MappingRows
  import opened VariantSync

  datatype Item = Item(sku: string, name: string, quantity: int, price: real)

  /** Everything a lookup reads: the mapping tables, Odoo's product.product records in the order a
      search returns them, and the SKUs for which a search of Odoo fails. */
  datatype Lookup = Lookup(mappings: Mappings, variants: seq<OdooVariant>, templateDown: set<string>, codeDown: set<string>)

  /** The search by template, which like every search of Odoo passes over archived records. */
  function FirstOfTemplate(variants: seq<OdooVariant>, template: Id): Option<Id> {
    var found := ActiveVariants(variants, template);
    if found == [] then None else Some(found[0].id)
  }

  /** The direct search of Odoo: the first active product with this internal reference. */
  function FirstWithCode(variants: seq<OdooVariant>, sku: string): Option<Id> {
    if variants == [] then None
    else if variants[0].active && variants[0].code == sku then Some(variants[0].id)
    else FirstWithCode(variants[1..], sku)
  }

  /** The fallback search swallows its failures. */
  function SearchByCode(look: Lookup, sku: string): Option<Id> {
    if sku in look.codeDown then None else FirstWithCode(look.variants, sku)
  }

  function FindOdooProductId(look: Lookup, sku: string): Result<Option<Id>> {
    match VariantBySku(look.mappings.variants, sku)
    case Some(i) => Done(Some(look.mappings.variants[i].odoo))
    case None =>
      match ProductBySku(look.mappings.products, sku)
      case None => Done(SearchByCode(look, sku))
      case Some(i) =>
        if sku in look.templateDown then Raised(Api)
        else match FirstOfTemplate(look.variants, look.mappings.products[i].odoo)
          case Some(id) => Done(Some(id))
          case None => Done(SearchByCode(look, sku))
  }

  function LineOf(item: Item, product: Id): OrderLine {
    OrderLine(product, item.quantity, item.price, if item.name != "" then item.name else item.sku)
  }

  function ResolveItem(look: Lookup, item: Item): Result<Option<Id>> {
    if item.sku == "" then Done(None) else FindOdooProductId(look, item.sku)
  }

  predicate Resolves(look: Lookup, item: Item) {
    ResolveItem(look, item).Done? && ResolveItem(look, item).value.Some?
  }

  function Lines(look: Lookup, items: seq<Item>): Result<seq<OrderLine>> {
    if items == [] then Done([])
    else
      var before := Lines(look, items[..|items| - 1]);
      var item := items[|items| - 1];
      if before.Raised? then before
      else match ResolveItem(look, item)
        case Raised(f) => Raised(f)
        case Done(None) => before
        case Done(Some(id)) => Done(before.value + [LineOf(item, id)])
  }

  method BuildOrderLines(look: Lookup, items: seq<Item>) returns (r: Result<seq<OrderLine>>)
    ensures r == Lines(look, items)
  {
    var lines := [];
    for k := 0 to |items|
      invariant Lines(look, items[..k]) == Done(lines)
    {
      assert items[..k + 1][..k] == items[..k];
      var product := ResolveItem(look, items[k]);
      if product.Raised? {
        RaisedStays(look, items, k + 1);
        return Raised(product.fault);
      }
      if product.value.Some? {
        lines := lines + [LineOf(items[k], product.value.value)];
      }
    }
    assert items[..|items|] == items;
    return Done(lines);
  }

  lemma {:induction false} RaisedStays(look: Lookup, items: seq<Item>, k: nat)
    requires k <= |items| && Lines(look, items[..k]).Raised?
    ensures Lines(look, items) == Lines(look, items[..k])
  {
    if k == |items| {
      assert items[..k] == items;
    } else {
      var shorter := items[..|items| - 1];
      assert shorter[..k] == items[..k];
      RaisedStays(look, shorter, k);
    }
  }

  // ---------- order lines are a projection of the items ----------

  ghost predicate Increasing(picks: seq<nat>, bound: nat) {
    && (forall k :: 0 <= k < |picks| ==> picks[k] < bound)
    && (forall j, k :: 0 <= j < k < |picks| ==> picks[j] < picks[k])
  }

  /** The line sells the product the SKU resolves to, as often and at the price the item says, under its name, or
      under its SKU if it has none. */
  ghost predicate IsLineOf(look: Lookup, item: Item, line: OrderLine) {
    && item.sku != "" && FindOdooProductId(look, item.sku) == Done(Some(line.product))
    && line.quantity == item.quantity && line.price == item.price
    && (item.name != "" ==> line.name == item.name)
    && (item.name == "" ==> line.name == item.sku)
  }

  /** The items that become lines: those with a SKU that the lookup finds a product for. */
  ghost predicate IsFound(look: Lookup, item: Item) {
    item.sku != "" && exists id :: FindOdooProductId(look, item.sku) == Done(Some(id))
  }

  lemma FoundResolves(look: Lookup, item: Item)
    ensures IsFound(look, item) <==> Resolves(look, item)
  {
    if Resolves(look, item) {
      assert FindOdooProductId(look, item.sku) == Done(Some(ResolveItem(look, item).value.value));
    }
  }

  /** picks lists, in increasing order, exactly the items that resolve, and each line is its item's. */
  ghost predicate IsProjection(look: Lookup, items: seq<Item>, lines: seq<OrderLine>, picks: seq<nat>) {
    && |picks| == |lines|
    && Increasing(picks, |items|)
    && (forall i :: 0 <= i < |items| ==> (IsFound(look, items[i]) <==> i in picks))
    && (forall k :: 0 <= k < |picks| ==> IsLineOf(look, items[picks[k]], lines[k]))
  }

  lemma ProjectOneMore(look: Lookup, items: seq<Item>, item: Item, lines: seq<OrderLine>, picks: seq<nat>)
    requires IsProjection(look, items, lines, picks)
    ensures !IsFound(look, item) ==> IsProjection(look, items + [item], lines, picks)
    ensures forall line :: IsLineOf(look, item, line) ==>
      IsProjection(look, items + [item], lines + [line], picks + [|items|])
  {
  }

  lemma {:induction false} LinesAreProjection(look: Lookup, items: seq<Item>) returns (picks: seq<nat>)
    requires Lines(look, items).Done?
    ensures IsProjection(look, items, Lines(look, items).value, picks)
  {
    if items == [] {
      picks := [];
    } else {
      var n := |items| - 1;
      var earlier := LinesAreProjection(look, items[..n]);
      assert items == items[..n] + [items[n]];
      FoundResolves(look, items[n]);
      ProjectOneMore(look, items[..n], items[n], Lines(look, items[..n]).value, earlier);
      picks := if Resolves(look, items[n]) then earlier + [n] else earlier;
    }
  }

  /** The order is rejected for having no lines exactly when no item resolves. */
  lemma {:induction false} EmptyLinesIffNothingResolves(look: Lookup, items: seq<Item>)
    requires Lines(look, items).Done?
    ensures Lines(look, items).value == [] <==> forall i :: 0 <= i < |items| ==> !IsFound(look, items[i])
  {
    var picks := LinesAreProjection(look, items);
    if Lines(look, items).value != [] {
      assert IsFound(look, items[picks[0]]);
    }
    if i :| 0 <= i < |items| && IsFound(look, items[i]) {
      assert i in picks;
    }
  }

  /** The items up to the first whose lookup raises decide: an attempt has lines to sell exactly if no lookup raises. */
  lemma {:induction false} LinesRaiseIff(look: Lookup, items: seq<Item>)
    ensures Lines(look, items).Raised? <==>
      exists i :: 0 <= i < |items| && items[i].sku != "" && FindOdooProductId(look, items[i].sku).Raised?
  {
    if items != [] {
      var n := |items| - 1;
      LinesRaiseIff(look, items[..n]);
      if Lines(look, items[..n]).Raised? {
        var i :| 0 <= i < n && items[..n][i].sku != "" && FindOdooProductId(look, items[..n][i].sku).Raised?;
        assert items[i].sku != "" && FindOdooProductId(look, items[i].sku).Raised?;
      } else {
        forall i | 0 <= i < n ensures !(items[i].sku != "" && FindOdooProductId(look, items[i].sku).Raised?) {
          assert items[..n][i] == items[i];
        }
      }
    }
  }

  /** The product that the search by template answers is the first active one of that template. */
  lemma FirstOfTemplateMeans(variants: seq<OdooVariant>, template: Id)
    ensures match FirstOfTemplate(variants, template)
      case Some(id) => exists k: nat :: IsFirstActive(variants, template, k) && variants[k].id == id
      case None => forall v :: v in variants ==> !(v.active && v.template == template)
  {
    ActiveVariantsAre(variants, template);
    if FirstOfTemplate(variants, template).Some? {
      var k := FirstActiveIsFirst(variants, template);
    }
  }

  // ---------- the three tiers agree with the direct search ----------

  ghost predicate UniqueCodes(variants: seq<OdooVariant>) {
    forall i, j ::
      && 0 <= i < |variants| && 0 <= j < |variants|
      && variants[i].active && variants[j].active && variants[i].code == variants[j].code != ""
      ==> i == j
  }

  ghost predicate Carries(variants: seq<OdooVariant>, id: Id, sku: string) {
    exists i :: 0 <= i < |variants| && variants[i].id == id && variants[i].active && variants[i].code == sku
  }

  /** The direct search answers what there is. */
  ghost predicate SearchIsTrue(look: Lookup, sku: string) {
    sku in look.codeDown ==> forall id :: !Carries(look.variants, id, sku)
  }

  /** The tier that answers tells the truth: a variant row names a carrier of the SKU; a product row names a template
      whose first active product carries it; and where neither answers, the direct search does. */
  ghost predicate AnswerIsTrue(look: Lookup, sku: string) {
    match VariantBySku(look.mappings.variants, sku)
    case Some(i) => Carries(look.variants, look.mappings.variants[i].odoo, sku)
    case None =>
      match ProductBySku(look.mappings.products, sku)
      case None => SearchIsTrue(look, sku)
      case Some(i) =>
        && sku !in look.templateDown
        && match FirstOfTemplate(look.variants, look.mappings.products[i].odoo)
           case Some(id) => Carries(look.variants, id, sku)
           case None => SearchIsTrue(look, sku)
  }

  lemma {:induction false} CodeSearchFinds(variants: seq<OdooVariant>, sku: string)
    ensures match FirstWithCode(variants, sku)
      case Some(id) => Carries(variants, id, sku)
      case None => forall i :: 0 <= i < |variants| ==> !(variants[i].active && variants[i].code == sku)
  {
    if variants != [] && !(variants[0].active && variants[0].code == sku) {
      CodeSearchFinds(variants[1..], sku);
      match FirstWithCode(variants, sku) {
        case Some(id) =>
          var i :| 0 <= i < |variants[1..]| && variants[1..][i].id == id && variants[1..][i].active && variants[1..][i].code == sku;
          assert variants[i + 1].id == id && variants[i + 1].active && variants[i + 1].code == sku;
        case None =>
          forall i | 0 <= i < |variants| ensures !(variants[i].active && variants[i].code == sku) {
            assert i > 0 ==> variants[1..][i - 1] == variants[i];
          }
      }
    }
  }

  lemma CarrierIsUnique(variants: seq<OdooVariant>, sku: string, id: Id)
    requires UniqueCodes(variants) && sku != "" && Carries(variants, id, sku)
    ensures FirstWithCode(variants, sku) == Some(id)
  {
  }

  /** The three tiers answer what the direct search of Odoo would if and only if the tier that answers tells the truth. */
  lemma ThreeTiersAgree(look: Lookup, sku: string)
    requires sku != "" && UniqueCodes(look.variants)
    ensures FindOdooProductId(look, sku) == Done(FirstWithCode(look.variants, sku)) <==> AnswerIsTrue(look, sku)
  {
    CodeSearchFinds(look.variants, sku);
    forall id: Id | Carries(look.variants, id, sku) ensures FirstWithCode(look.variants, sku) == Some(id) {
      CarrierIsUnique(look.variants, sku, id);
    }
  }

  /** Where they differ: the row of a variable product answers its parent SKU with the first variant, although
      no product in Odoo carries that SKU. */
  lemma ParentSkuPicksFirstVariant()
    ensures exists look: Lookup, sku ::
      && sku != "" && UniqueCodes(look.variants) && look.templateDown == look.codeDown == {}
      && !AnswerIsTrue(look, sku)
      && FirstWithCode(look.variants, sku) == None
      && FindOdooProductId(look, sku) == Done(Some(7))
  {
    var v := OdooVariant(7, 3, "TURF-20", true, 1.0, "");
    var rows: map<nat, ProductRow> := map[0 := ProductRow(3, Some(9), "TURF", Variable, SyncStatus.Synced)];
    var look := Lookup(Mappings(rows, map[]), [v], {}, {});
    assert 0 in ProductsOfSku(rows, "TURF");
    assert VariantBySku(look.mappings.variants, "TURF") == None;
    assert v.code != "TURF" by {
      assert |v.code| == 7;
    }
    assert FirstWithCode(look.variants[1..], "TURF") == None;
    assert FirstWithCode(look.variants, "TURF") == None;
    assert ActiveVariants(look.variants, 3) == [v] + ActiveVariants(look.variants[1..], 3);
    assert FindOdooProductId(look, "TURF") == Done(Some(7));
    ThreeTiersAgree(look, "TURF");
  }
}
