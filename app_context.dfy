/**
 * The process-wide store: the live `user` and `cart`, the local-storage
 * entries they are restored from, and the persist effect that writes the
 * cart snapshot after every change. Every cart operation replaces the line
 * sequence by the corresponding transform of `CartOps` and then persists it.
 */
module AppContext {
  import opened Wrappers
  import opened Context
  import CartOps

  /**
   * The browser's local storage, reduced to the three entries the app uses:
   * `"cart"` (the line array), `"token"` (the opaque credential) and `"user"`
   * (the identity). `None` is an entry that is absent.
   */
  class LocalStorage {
    var cart: Option<seq<CartItem>>
    var token: Option<string>
    var user: Option<User>

    constructor (cart: Option<seq<CartItem>>, token: Option<string>, user: Option<User>)
      ensures this.cart == cart && this.token == token && this.user == user
    {
      this.cart := cart;
      this.token := token;
      this.user := user;
    }
  }

  /** The identity restored at start-up, under `token && savedUser`: the saved one exactly when a non-empty token is also present. */
  function RestoredUser(token: Option<string>, user: Option<User>): (r: Option<User>)
    ensures r.Some? <==> token.Some? && token.value != "" && user.Some?
    ensures r.Some? ==> r == user
  {
    if token.Some? && token.value != "" && user.Some? then user else None
  }

  class AppProvider {
    var user: Option<User>
    var cart: seq<CartItem>
    const storage: LocalStorage

    /** The snapshot under `"cart"` equals the live cart. */
    ghost predicate Persisted()
      reads this, storage
    {
      storage.cart == Some(cart)
    }

    /**
     * Mounting the provider: the state starts as no user and an empty cart;
     * the start-up effect restores a saved cart, and the saved user only when
     * a token is also present; the persist effect then writes the cart back.
     */
    constructor (storage: LocalStorage)
      modifies storage`cart
      ensures this.storage == storage
      ensures cart == old(storage.cart).GetOr([])
      ensures user == RestoredUser(storage.token, storage.user)
      ensures Persisted()
    {
      this.storage := storage;
      user := None;
      cart := [];
      new;
      if storage.cart.Some? {
        cart := storage.cart.value;
      }
      var restored := RestoredUser(storage.token, storage.user);
      if restored.Some? {
        user := restored;
      }
      Persist();
    }

    /** The persist effect: `localStorage.setItem("cart", JSON.stringify(cart))`. */
    method Persist()
      modifies storage`cart
      ensures Persisted()
    {
      storage.cart := Some(cart);
    }

    /** `setUser`: wholesale replacement of the session; the stored entries are not touched. */
    method SetUser(u: Option<User>)
      modifies this`user
      ensures user == u
    {
      user := u;
    }

    method AddToCart(item: NewItem)
      modifies this`cart, storage`cart
      ensures cart == CartOps.AddToCart(old(cart), item)
      ensures CartOps.WellFormed(old(cart)) ==> CartOps.WellFormed(cart)
      ensures Persisted()
    {
      if CartOps.WellFormed(cart) {
        CartOps.AddKeepsWellFormed(cart, item);
      }
      cart := CartOps.AddToCart(cart, item);
      Persist();
    }

    method RemoveFromCart(productId: string)
      modifies this`cart, storage`cart
      ensures cart == CartOps.RemoveFromCart(old(cart), productId)
      ensures CartOps.WellFormed(old(cart)) ==> CartOps.WellFormed(cart)
      ensures Persisted()
    {
      if CartOps.WellFormed(cart) {
        CartOps.RemoveKeepsWellFormed(cart, productId);
      }
      cart := CartOps.RemoveFromCart(cart, productId);
      Persist();
    }

    method UpdateQty(productId: string, qty: int)
      modifies this`cart, storage`cart
      ensures cart == CartOps.UpdateQty(old(cart), productId, qty)
      ensures CartOps.WellFormed(old(cart)) ==> CartOps.WellFormed(cart)
      ensures Persisted()
    {
      if CartOps.WellFormed(cart) {
        CartOps.UpdateQtyKeepsWellFormed(cart, productId, qty);
      }
      cart := CartOps.UpdateQty(cart, productId, qty);
      Persist();
    }

    method UpdateStock(productId: string, newStock: int)
      modifies this`cart, storage`cart
      ensures cart == CartOps.UpdateStock(old(cart), productId, newStock)
      ensures CartOps.WellFormed(old(cart)) && newStock >= 1 ==> CartOps.WellFormed(cart)
      ensures CartOps.UniqueIds(old(cart)) ==> CartOps.UniqueIds(cart)
      ensures Persisted()
    {
      CartOps.UpdateStockKeepsIds(cart, productId, newStock);
      if CartOps.WellFormed(cart) && newStock >= 1 {
        CartOps.UpdateStockKeepsWellFormed(cart, productId, newStock);
      }
      cart := CartOps.UpdateStock(cart, productId, newStock);
      Persist();
    }

    method UpdateCartItem(productId: string, updates: CartPatch)
      modifies this`cart, storage`cart
      ensures cart == CartOps.UpdateCartItem(old(cart), productId, updates)
      ensures updates.productId.None? && CartOps.UniqueIds(old(cart)) ==> CartOps.UniqueIds(cart)
      ensures updates.productId.None? && updates.quantity.None? && updates.stock.None? && CartOps.WellFormed(old(cart)) ==>
        CartOps.WellFormed(cart)
      ensures Persisted()
    {
      if updates.productId.None? {
        CartOps.UpdateCartItemKeepsIds(cart, productId, updates);
        if updates.quantity.None? && updates.stock.None? && CartOps.WellFormed(cart) {
          CartOps.UpdateCartItemKeepsWellFormed(cart, productId, updates);
        }
      }
      cart := CartOps.UpdateCartItem(cart, productId, updates);
      Persist();
    }

    method ClearCart()
      modifies this`cart, storage`cart
      ensures cart == []
      ensures Persisted()
    {
      cart := [];
      Persist();
    }
  }

  /**
   * A page reload: a fresh provider mounted on the same storage starts with
   * the cart the old one had persisted, and with the user only if a session
   * is stored.
   */
  method Reload(app: AppProvider) returns (next: AppProvider)
    requires app.Persisted()
    modifies app.storage`cart
    ensures next.storage == app.storage && next.cart == app.cart
    ensures next.user == RestoredUser(app.storage.token, app.storage.user)
    ensures next.Persisted()
  {
    next := new AppProvider(app.storage);
  }
}
