/**
 * The catalogue page: each product's card (stock badge, sold-out overlay,
 * add button), its description truncated at 55 characters, the item it
 * hands to `addToCart`, and the query parameters of the search.
 */
module Products {
  import opened Wrappers
  import opened Context
  import opened Decimal
  import opened Expandable
  import CartOps

  /** A catalogue entry as the API returns it (`_id` is `id` here). */
  datatype Product = Product(id: string, title: string, price: int, description: string, image: string, stock: int)

  const CatalogueDescriptionLength: nat := 55

  /** The catalogue's description: whole up to 55 characters, else its first 55 and "..." while collapsed. */
  function CatalogueDescription(p: Product, expanded: bool): (v: DescriptionView)
    ensures |p.description| <= 55 ==> v.text == p.description && v.toggle.None?
    ensures |p.description| > 55 && !expanded ==> v.text == p.description[..55] + "..."
    ensures expanded ==> v.text == p.description
  {
    var v := Render(p.description, CatalogueDescriptionLength, expanded);
    assert |p.description| > 55 && !expanded ==> v.text == v.text[..55] + v.text[55..];
    v
  }

  /** What "Add to Cart" passes to the store: the product's fields, `_id` as `productId`, no quantity. */
  function AddPayload(p: Product): (item: NewItem)
    ensures item.productId == p.id && item.title == p.title && item.price == p.price
    ensures item.image == p.image && item.stock == p.stock && item.description == p.description
  {
    NewItem(p.id, p.title, p.price, p.image, p.stock, p.description)
  }

  /** The parts of a product card that depend on its data. */
  datatype Card = Card(badge: string, badgeInStock: bool, soldOutOverlay: bool, addDisabled: bool)

  function ProductCard(p: Product): (c: Card)
    ensures c.badgeInStock <==> p.stock > 0
    ensures p.stock > 0 ==> c.badge == NatToString(p.stock) + " left"
    ensures p.stock <= 0 ==> c.badge == "Sold out"
    ensures c.soldOutOverlay <==> p.stock == 0
    ensures c.addDisabled <==> p.stock == 0
  {
    Card(
      if p.stock > 0 then NatToString(p.stock) + " left" else "Sold out",
      p.stock > 0,
      p.stock == 0,
      p.stock == 0)
  }

  /**
   * The three rules disagree on a negative stock: the badge reads
   * "Sold out" while the button stays enabled and no overlay is shown.
   */
  lemma NegativeStockCard(p: Product)
    requires p.stock < 0
    ensures var c := ProductCard(p); c.badge == "Sold out" && !c.addDisabled && !c.soldOutOverlay
  {
  }

  /** `params: q ? { q } : {}`: the query is sent only when it is non-empty. */
  function SearchParams(q: string): (params: map<string, string>)
    ensures "q" in params <==> q != ""
    ensures params.Keys <= {"q"}
    ensures "q" in params ==> params["q"] == q
  {
    if q != "" then map["q" := q] else map[]
  }

  /**
   * Adding a product that is not in the cart appends its line with the
   * product's own fields and quantity 1; adding one whose line already holds
   * the product's stock leaves the cart as it was.
   */
  lemma AddFromCatalogue(cart: seq<CartItem>, p: Product)
    ensures !CartOps.HasId(cart, p.id) ==>
      CartOps.AddToCart(cart, AddPayload(p)) ==
        cart + [CartItem(p.id, p.title, p.price, p.image, 1, p.stock, p.description)]
    ensures CartOps.HasId(cart, p.id) && CartOps.Found(cart, p.id).quantity >= p.stock ==>
      CartOps.AddToCart(cart, AddPayload(p)) == cart
  {
    if !CartOps.HasId(cart, p.id) {
      var r := CartOps.AddToCart(cart, AddPayload(p));
      assert r == r[..|cart|] + [r[|cart|]];
    }
  }
}
