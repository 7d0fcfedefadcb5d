/** Lookups in the mapping tables by their unique columns. */
module MappingRows {
  import opened Outcomes
  import opened Tables

  function First(ids: set<nat>): (r: Option<nat>)
    ensures r.None? <==> ids == {}
    ensures r.Some? ==> r.value in ids
  {
    if ids == {} then None else Some(Least(ids))
  }

  function ProductsOfOdoo(rows: map<nat, ProductRow>, odoo: Id): set<nat> {
    set i | i in rows && rows[i].odoo == odoo
  }

  function ProductsOfSku(rows: map<nat, ProductRow>, sku: string): set<nat> {
    set i | i in rows && rows[i].sku == sku
  }

  function VariantsOfOdoo(rows: map<nat, VariantRow>, odoo: Id): set<nat> {
    set i | i in rows && rows[i].odoo == odoo
  }

  function VariantsOfSku(rows: map<nat, VariantRow>, sku: string): set<nat> {
    set i | i in rows && rows[i].sku == sku
  }

  function ProductByOdoo(rows: map<nat, ProductRow>, odoo: Id): Option<nat> {
    First(ProductsOfOdoo(rows, odoo))
  }

  function ProductBySku(rows: map<nat, ProductRow>, sku: string): Option<nat> {
    First(ProductsOfSku(rows, sku))
  }

  function VariantByOdoo(rows: map<nat, VariantRow>, odoo: Id): Option<nat> {
    First(VariantsOfOdoo(rows, odoo))
  }

  function VariantBySku(rows: map<nat, VariantRow>, sku: string): Option<nat> {
    First(VariantsOfSku(rows, sku))
  }

  function VariantsUnder(rows: map<nat, VariantRow>, parent: nat): set<nat> {
    set j | j in rows && rows[j].parent == parent
  }

  /** A set of ids in ascending order. */
  function InOrder(ids: set<nat>): (s: seq<nat>)
    ensures forall j :: j in s <==> j in ids
    ensures forall a, b :: 0 <= a < b < |s| ==> s[a] < s[b]
  {
    if ids == {} then []
    else
      var first := Least(ids);
      var rest := InOrder(ids - {first});
      assert forall b :: 0 <= b < |rest| ==> rest[b] in ids - {first};
      [first] + rest
  }
}
