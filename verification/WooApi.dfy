/** The part of WooCommerce the catalogue services write to.  Effects are permanent. */
module WooApi {
  import opened Outcomes
  import opened Tables

  datatype WooReply = WooReply(woo: Woo, got: Result<Id>)

  function ProductsWithSku(woo: Woo, sku: string): set<Id> {
    set x | x in woo.products && woo.products[x].sku == sku
  }

  function VariationsUnder(woo: Woo, product: Id, sku: string): set<Id> {
    set z | z in woo.variations && woo.variations[z].parent == product && woo.variations[z].sku == sku
  }

  /** How an update of a product ends.  Missing is the answer 400 or 404 with "Invalid ID" or "not found". */
  datatype Updating = Updated(woo: Woo) | Missing | Broken(woo: Woo, fault: Fault)

  function UpdateProduct(woo: Woo, id: Id, product: WooProduct, call: Call): Updating {
    if call.Lost? then Broken(woo, call.fault)
    else if id !in woo.products then (if call.Late? then Broken(woo, call.fault) else Missing)
    else
      var written := woo.(products := woo.products[id := product]);
      if call.Late? then Broken(written, call.fault) else Updated(written)
  }

  /** The n ids from first on. */
  function NextIds(first: Id, n: nat): (ids: set<Id>)
    ensures forall x: Id :: x in ids <==> first <= x < first + n
    ensures |ids| == n
  {
    if n == 0 then {} else NextIds(first, n - 1) + {first + n - 1}
  }

  function OneMoreProduct(woo: Woo, product: WooProduct): Woo {
    woo.(products := woo.products[woo.nextProduct := product], nextProduct := woo.nextProduct + 1)
  }

  /** n products with the same payload, under the next ids. */
  function MakeProducts(woo: Woo, product: WooProduct, n: nat): (made: Woo)
    ensures made == woo.(products := made.products, nextProduct := woo.nextProduct + n)
    ensures forall x: Id :: x in made.products <==> x in woo.products || woo.nextProduct <= x < woo.nextProduct + n
    ensures forall x: Id :: x in made.products ==>
      made.products[x] == if woo.nextProduct <= x < woo.nextProduct + n then product else woo.products[x]
  {
    if n == 0 then woo else OneMoreProduct(MakeProducts(woo, product, n - 1), product)
  }

  /** The shop takes a SKU that is taken already, and every send that takes effect makes a product.  The caller
      hears of the last one only. */
  function CreateProduct(woo: Woo, product: WooProduct, posting: Posting): WooReply {
    WooReply(MakeProducts(woo, product, posting.Effects()),
             if posting.last.Ok? then Done(woo.nextProduct + posting.resent) else Raised(posting.last.fault))
  }

  /** A variation is addressed under its product; any other address is answered 404. */
  function UpdateVariation(woo: Woo, product: Id, id: Id, sku: string, data: string, call: Call): WooReply {
    if call.Lost? then WooReply(woo, Raised(call.fault))
    else if id !in woo.variations || woo.variations[id].parent != product then
      WooReply(woo, Raised(if call.Late? then call.fault else Api))
    else
      var written := woo.(variations := woo.variations[id := Variation(product, sku, data)]);
      WooReply(written, if call.Late? then Raised(call.fault) else Done(id))
  }

  function OneMoreVariation(woo: Woo, product: Id, sku: string, data: string): Woo {
    var z := woo.nextVariation;
    woo.(variations := woo.variations[z := Variation(product, sku, data)],
         madeUnder := woo.madeUnder[z := product],
         nextVariation := z + 1)
  }

  function MakeVariations(woo: Woo, product: Id, sku: string, data: string, n: nat): (made: Woo)
    ensures made == woo.(variations := made.variations, madeUnder := made.madeUnder, nextVariation := woo.nextVariation + n)
    ensures forall z: Id :: z in made.variations <==> z in woo.variations || woo.nextVariation <= z < woo.nextVariation + n
    ensures forall z: Id :: z in made.variations ==>
      made.variations[z] == if woo.nextVariation <= z < woo.nextVariation + n then Variation(product, sku, data) else woo.variations[z]
    ensures forall z: Id :: z in made.madeUnder <==> z in woo.madeUnder || woo.nextVariation <= z < woo.nextVariation + n
    ensures forall z: Id :: z in made.madeUnder ==>
      made.madeUnder[z] == if woo.nextVariation <= z < woo.nextVariation + n then product else woo.madeUnder[z]
  {
    if n == 0 then woo else OneMoreVariation(MakeVariations(woo, product, sku, data, n - 1), product, sku, data)
  }

  /** The same of variations, except that a product that is not there is answered 404. */
  function CreateVariation(woo: Woo, product: Id, sku: string, data: string, posting: Posting): WooReply {
    if product !in woo.products then WooReply(woo, Raised(if posting.last.Ok? then Api else posting.last.fault))
    else
      WooReply(MakeVariations(woo, product, sku, data, posting.Effects()),
               if posting.last.Ok? then Done(woo.nextVariation + posting.resent) else Raised(posting.last.fault))
  }

  /** A shop manager deletes a product, and with it its variations. */
  function DeleteProduct(woo: Woo, id: Id): Woo {
    woo.(products := woo.products - {id},
         variations := map z | z in woo.variations && woo.variations[z].parent != id :: woo.variations[z])
  }

  /** A shop manager deletes one variation. */
  function DeleteVariation(woo: Woo, id: Id): Woo {
    woo.(variations := woo.variations - {id})
  }

  /** Ids are never handed out twice, and a variation lives under the product it was made under. */
  ghost predicate WooSound(woo: Woo) {
    && (forall x :: x in woo.products ==> x < woo.nextProduct)
    && (forall z :: z in woo.madeUnder ==> z < woo.nextVariation)
    && (forall z :: z in woo.variations ==>
          && z in woo.madeUnder
          && woo.madeUnder[z] == woo.variations[z].parent
          && woo.variations[z].parent in woo.products)
  }
}
