/** The shop as the services hold it. */
module WooShop {
  import opened Outcomes
  import opened Tables
  import WooApi

  class WooStore {
    var products: map<Id, WooProduct>
    var nextProduct: Id
    var variations: map<Id, Variation>
    var nextVariation: Id
    ghost var madeUnder: map<Id, Id>

    ghost function View(): Woo
      reads this
    {
      Woo(products, nextProduct, variations, nextVariation, madeUnder)
    }

    constructor (start: Woo)
      ensures View() == start
    {
      products, nextProduct := start.products, start.nextProduct;
      variations, nextVariation, madeUnder := start.variations, start.nextVariation, start.madeUnder;
    }

    method UpdateProduct(id: Id, product: WooProduct, call: Call) returns (end: Result<bool>)
      modifies this`products
      ensures match WooApi.UpdateProduct(old(View()), id, product, call)
        case Updated(woo) => end == Done(true) && View() == woo
        case Missing => end == Done(false) && View() == old(View())
        case Broken(woo, f) => end == Raised(f) && View() == woo
    {
      if call.Lost? {
        return Raised(call.fault);
      }
      if id !in products {
        return if call.Late? then Raised(call.fault) else Done(false);
      }
      products := products[id := product];
      return if call.Late? then Raised(call.fault) else Done(true);
    }

    method MakeProduct(product: WooProduct) returns (r: Result<Id>)
      modifies this`products, this`nextProduct
      ensures r == Done(old(nextProduct))
      ensures View() == WooApi.OneMoreProduct(old(View()), product)
    {
      r := Done(nextProduct);
      products := products[nextProduct := product];
      nextProduct := nextProduct + 1;
    }

    /** One request, sent until it is answered or given up; every send that takes effect makes a product. */
    method CreateProduct(product: WooProduct, posting: Posting) returns (r: Result<Id>)
      modifies this`products, this`nextProduct
      ensures WooApi.WooReply(View(), r) == WooApi.CreateProduct(old(View()), product, posting)
    {
      ghost var before := View();
      r := Raised(Api);
      for k := 0 to posting.Effects()
        invariant View() == WooApi.MakeProducts(before, product, k)
        invariant k > 0 ==> r == Done(before.nextProduct + k - 1)
      {
        r := MakeProduct(product);
      }
      if !posting.last.Ok? {
        r := Raised(posting.last.fault);
      }
    }

    method FindProductBySku(sku: string, preferred: int) returns (r: Option<Id>)
      ensures r == Chosen(WooApi.ProductsWithSku(View(), sku), preferred)
    {
      var matches := set x | x in products && products[x].sku == sku;
      assert matches == WooApi.ProductsWithSku(View(), sku);
      r := Chosen(matches, preferred);
    }

    method UpdateVariation(product: Id, id: Id, sku: string, data: string, call: Call) returns (r: Result<Id>)
      modifies this`variations
      ensures WooApi.WooReply(View(), r) == WooApi.UpdateVariation(old(View()), product, id, sku, data, call)
    {
      if call.Lost? {
        return Raised(call.fault);
      }
      if id !in variations || variations[id].parent != product {
        return Raised(if call.Late? then call.fault else Api);
      }
      variations := variations[id := Variation(product, sku, data)];
      return if call.Late? then Raised(call.fault) else Done(id);
    }

    method MakeVariation(product: Id, sku: string, data: string) returns (r: Result<Id>)
      modifies this`variations, this`nextVariation, this`madeUnder
      ensures r == Done(old(nextVariation))
      ensures View() == WooApi.OneMoreVariation(old(View()), product, sku, data)
    {
      r := Done(nextVariation);
      variations := variations[nextVariation := Variation(product, sku, data)];
      madeUnder := madeUnder[nextVariation := product];
      nextVariation := nextVariation + 1;
    }

    method CreateVariation(product: Id, sku: string, data: string, posting: Posting) returns (r: Result<Id>)
      modifies this`variations, this`nextVariation, this`madeUnder
      ensures WooApi.WooReply(View(), r) == WooApi.CreateVariation(old(View()), product, sku, data, posting)
    {
      r := Raised(Api);
      if product in products {
        ghost var before := View();
        for k := 0 to posting.Effects()
          invariant View() == WooApi.MakeVariations(before, product, sku, data, k)
          invariant k > 0 ==> r == Done(before.nextVariation + k - 1)
        {
          r := MakeVariation(product, sku, data);
        }
      }
      if !posting.last.Ok? {
        r := Raised(posting.last.fault);
      }
    }

    /** list_variations followed by a scan for the SKU; a failing listing is answered as "not found". */
    method FindVariationBySku(product: Id, sku: string, fails: bool, preferred: int) returns (r: Option<Id>)
      ensures r == if fails then None else Chosen(WooApi.VariationsUnder(View(), product, sku), preferred)
    {
      if fails {
        return None;
      }
      var matches := set z | z in variations && variations[z].parent == product && variations[z].sku == sku;
      assert matches == WooApi.VariationsUnder(View(), product, sku);
      r := Chosen(matches, preferred);
    }
  }
}
