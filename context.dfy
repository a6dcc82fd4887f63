/**
 * The records the store holds: a cart line, the item the catalogue hands to
 * `addToCart` (a line without its quantity), the partial line `updateCartItem`
 * merges, and the signed-in user.
 */
module Context {
  import opened Wrappers

  datatype Role = Customer | Admin

  /** The session identity; `role` is `"user"` (Customer) or `"admin"`. */
  datatype User = User(id: string, name: string, email: string, role: Role)

  /** One product's line in the cart, keyed by `productId`. Prices, stock and quantities are integers here. */
  datatype CartItem = CartItem(
    productId: string,
    title: string,
    price: int,
    image: string,
    quantity: int,
    stock: int,
    description: string)

  /** `Omit<CartItem, "quantity">`: what the catalogue passes to `addToCart`. */
  datatype NewItem = NewItem(
    productId: string,
    title: string,
    price: int,
    image: string,
    stock: int,
    description: string)

  /** `Partial<CartItem>`: each field is either supplied (`Some`) or absent (`None`). */
  datatype CartPatch = CartPatch(
    productId: Option<string>,
    title: Option<string>,
    price: Option<int>,
    image: Option<string>,
    quantity: Option<int>,
    stock: Option<int>,
    description: Option<string>)

  /** The patch that supplies only a description, as the cart page's back-fill does. */
  function DescriptionPatch(description: string): CartPatch
  {
    CartPatch(None, None, None, None, None, None, Some(description))
  }

  const EmptyPatch := CartPatch(None, None, None, None, None, None, None)
}
