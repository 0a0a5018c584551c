/** The read-only catalog the cart and checkout consult: products, variants and albums by id. */
module Catalog {
  import opened Products
  import opened Variants
  import opened Albums

  datatype Goods = Goods(products: map<int, Product>, variants: map<int, Variant>, albums: map<int, Album>)

  /** Rows are stored under their own ids and every foreign key names an existing row. */
  predicate WellFormed(g: Goods)
  {
    (forall id :: id in g.products ==> g.products[id].id == id) &&
    (forall id :: id in g.variants ==> g.variants[id].id == id && g.variants[id].productId in g.products) &&
    (forall id :: id in g.albums ==> g.albums[id].id == id && MembersKnown(g.albums[id].members, g.products))
  }

  /** The product a variant belongs to. */
  function VariantProduct(g: Goods, variantId: int): (p: Product)
    requires WellFormed(g) && variantId in g.variants
    ensures p.id == g.variants[variantId].productId
  {
    g.products[g.variants[variantId].productId]
  }
}
