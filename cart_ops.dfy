/**
 * The five cart transforms of the store, each a total function from the
 * previous line sequence (the `prev` of a functional state update) to the
 * next one. `find` picks the first line with the id; `map` and `filter`
 * visit every line, so a cart holding the same id twice behaves as the
 * store's code does, not as the key invariant would suggest.
 */
module CartOps {
  import opened Wrappers
  import opened Context

  /** Some line carries the product id. */
  predicate HasId(cart: seq<CartItem>, id: string)
  {
    exists i | 0 <= i < |cart| :: cart[i].productId == id
  }

  /** At most one line per product id: the store's key invariant. */
  predicate UniqueIds(cart: seq<CartItem>)
  {
    forall i, j | 0 <= i < j < |cart| :: cart[i].productId != cart[j].productId
  }

  /** Quantity never below 1, and never above a positive stock. */
  predicate LineInBounds(line: CartItem)
  {
    1 <= line.quantity && (line.stock > 0 ==> line.quantity <= line.stock)
  }

  /** The cart invariant that the add, remove and set-quantity paths keep. */
  predicate WellFormed(cart: seq<CartItem>)
  {
    UniqueIds(cart) && forall i | 0 <= i < |cart| :: LineInBounds(cart[i])
  }

  /** `Math.min`. */
  function Min(a: int, b: int): (m: int)
    ensures m <= a && m <= b && (m == a || m == b)
  {
    if a <= b then a else b
  }

  /** `prev.find((p) => p.productId === id)`, as the index of the first match. */
  function FindIndex(cart: seq<CartItem>, id: string): (r: Option<nat>)
    ensures r.None? <==> !HasId(cart, id)
    ensures r.Some? ==> r.value < |cart| && cart[r.value].productId == id
    ensures r.Some? ==> forall j | 0 <= j < r.value :: cart[j].productId != id
    decreases |cart|
  {
    if cart == [] then None
    else if cart[0].productId == id then Some(0)
    else match FindIndex(cart[1..], id)
      case None =>
        assert forall i | 1 <= i < |cart| :: cart[i] == cart[1..][i - 1];
        None
      case Some(k) => Some(k + 1)
  }

  /** The line `find` returns. */
  function Found(cart: seq<CartItem>, id: string): (line: CartItem)
    requires HasId(cart, id)
    ensures line in cart && line.productId == id
  {
    cart[FindIndex(cart, id).value]
  }

  /** With unique ids, `find` returns the one line that has the id. */
  lemma FoundUnique(cart: seq<CartItem>, k: nat)
    requires UniqueIds(cart) && k < |cart|
    ensures FindIndex(cart, cart[k].productId) == Some(k)
  {
  }

  /** `{ ...item, quantity: 1 }`. */
  function NewLine(item: NewItem): CartItem
  {
    CartItem(item.productId, item.title, item.price, item.image, 1, item.stock, item.description)
  }

  /**
   * `addToCart`: a product not yet in the cart is appended as one line of
   * quantity 1 whatever its stock; a product whose found line already holds
   * `item.stock` or more is refused; otherwise every line with the id gains
   * one unit and takes the provided stock, keeping its other fields.
   */
  function AddToCart(cart: seq<CartItem>, item: NewItem): (r: seq<CartItem>)
    ensures !HasId(cart, item.productId) ==>
      |r| == |cart| + 1 && r[..|cart|] == cart && r[|cart|] == NewLine(item)
    ensures HasId(cart, item.productId) && Found(cart, item.productId).quantity >= item.stock ==>
      r == cart
    ensures HasId(cart, item.productId) && Found(cart, item.productId).quantity < item.stock ==>
      |r| == |cart| &&
      forall i | 0 <= i < |cart| ::
        r[i] == if cart[i].productId == item.productId
                then cart[i].(quantity := cart[i].quantity + 1, stock := item.stock)
                else cart[i]
  {
    match FindIndex(cart, item.productId)
    case None => cart + [NewLine(item)]
    case Some(k) =>
      var incremented := seq(|cart|, i requires 0 <= i < |cart| =>
        if cart[i].productId == item.productId
        then cart[i].(quantity := cart[i].quantity + 1, stock := item.stock)
        else cart[i]);
      if cart[k].quantity >= item.stock then cart else incremented
  }

  /** `prev.filter((p) => p.productId !== id)`. */
  function RemoveFromCart(cart: seq<CartItem>, id: string): (r: seq<CartItem>)
    ensures forall x :: x in r <==> x in cart && x.productId != id
    ensures IsSubsequence(r, cart)
    ensures !HasId(r, id)
    ensures !HasId(cart, id) ==> r == cart
    ensures forall x :: multiset(r)[x] == if x.productId == id then 0 else multiset(cart)[x]
    decreases |cart|
  {
    if cart == [] then []
    else
      var rest := RemoveFromCart(cart[1..], id);
      assert cart == [cart[0]] + cart[1..];
      assert multiset(cart) == multiset{cart[0]} + multiset(cart[1..]);
      if cart[0].productId != id then
        assert ([cart[0]] + rest)[1..] == rest;
        assert multiset([cart[0]] + rest) == multiset{cart[0]} + multiset(rest);
        [cart[0]] + rest
      else
        rest
  }

  /** `a` is `b` with some elements deleted, the rest kept in order. */
  predicate IsSubsequence<T(==)>(a: seq<T>, b: seq<T>)
    decreases |b|
  {
    a == [] || (b != [] && ((a[0] == b[0] && IsSubsequence(a[1..], b[1..])) || IsSubsequence(a, b[1..])))
  }

  /**
   * `updateQty`: an absent id, or a clamped quantity `min(qty, stock)` below 1
   * (stock taken from the found line), leaves the cart unchanged; otherwise
   * every line with the id gets that clamped quantity, which lies in
   * `[1, stock]`, and nothing else changes.
   */
  function UpdateQty(cart: seq<CartItem>, id: string, qty: int): (r: seq<CartItem>)
    ensures |r| == |cart|
    ensures !HasId(cart, id) ==> r == cart
    ensures HasId(cart, id) && Min(qty, Found(cart, id).stock) < 1 ==> r == cart
    ensures HasId(cart, id) && Min(qty, Found(cart, id).stock) >= 1 ==>
      var m := Min(qty, Found(cart, id).stock);
      1 <= m <= Found(cart, id).stock && m <= qty &&
      forall i | 0 <= i < |cart| ::
        r[i] == if cart[i].productId == id then cart[i].(quantity := m) else cart[i]
  {
    match FindIndex(cart, id)
    case None => cart
    case Some(k) =>
      var maxQty := Min(qty, cart[k].stock);
      var clamped := seq(|cart|, i requires 0 <= i < |cart| =>
        if cart[i].productId == id then cart[i].(quantity := maxQty) else cart[i]);
      if maxQty < 1 then cart else clamped
  }

  /**
   * `updateStock`: every line with the id takes the new stock and the
   * quantity `min(quantity, newStock)`, so its quantity is at most the new
   * stock; length, order and all other lines and fields are kept.
   */
  function UpdateStock(cart: seq<CartItem>, id: string, newStock: int): (r: seq<CartItem>)
    ensures |r| == |cart|
    ensures forall i | 0 <= i < |cart| && cart[i].productId == id ::
      r[i].stock == newStock && r[i].quantity <= newStock && r[i].quantity <= cart[i].quantity &&
      (r[i].quantity == cart[i].quantity || r[i].quantity == newStock) &&
      r[i] == cart[i].(stock := r[i].stock, quantity := r[i].quantity)
    ensures forall i | 0 <= i < |cart| && cart[i].productId != id :: r[i] == cart[i]
  {
    seq(|cart|, i requires 0 <= i < |cart| =>
      if cart[i].productId == id
      then cart[i].(stock := newStock, quantity := Min(cart[i].quantity, newStock))
      else cart[i])
  }

  /** `{ ...p, ...updates }`: each supplied field overwrites, each absent one is kept. */
  function Merge(line: CartItem, patch: CartPatch): (r: CartItem)
    ensures r.productId == patch.productId.GetOr(line.productId)
    ensures r.title == patch.title.GetOr(line.title)
    ensures r.price == patch.price.GetOr(line.price)
    ensures r.image == patch.image.GetOr(line.image)
    ensures r.quantity == patch.quantity.GetOr(line.quantity)
    ensures r.stock == patch.stock.GetOr(line.stock)
    ensures r.description == patch.description.GetOr(line.description)
  {
    CartItem(
      patch.productId.GetOr(line.productId),
      patch.title.GetOr(line.title),
      patch.price.GetOr(line.price),
      patch.image.GetOr(line.image),
      patch.quantity.GetOr(line.quantity),
      patch.stock.GetOr(line.stock),
      patch.description.GetOr(line.description))
  }

  /** `updateCartItem`: the patch is merged into every line with the id; other lines are kept. */
  function UpdateCartItem(cart: seq<CartItem>, id: string, patch: CartPatch): (r: seq<CartItem>)
    ensures |r| == |cart|
    ensures forall i | 0 <= i < |cart| ::
      r[i] == if cart[i].productId == id then Merge(cart[i], patch) else cart[i]
  {
    seq(|cart|, i requires 0 <= i < |cart| =>
      if cart[i].productId == id then Merge(cart[i], patch) else cart[i])
  }

  // ---------------------------------------------------------------------
  // Properties of the transforms

  /** Adding keeps at most one line per product, changes the length by at most one, and afterwards the product is in the cart. */
  lemma AddKeepsKeys(cart: seq<CartItem>, item: NewItem)
    ensures var r := AddToCart(cart, item);
      |cart| <= |r| <= |cart| + 1 &&
      (UniqueIds(cart) ==> UniqueIds(r)) &&
      HasId(r, item.productId) &&
      forall x :: HasId(r, x) <==> HasId(cart, x) || x == item.productId
  {
    var r := AddToCart(cart, item);
    if !HasId(cart, item.productId) {
      assert r[|cart|].productId == item.productId;
      forall x ensures HasId(r, x) <==> HasId(cart, x) || x == item.productId {
        if HasId(cart, x) {
          var i :| 0 <= i < |cart| && cart[i].productId == x;
          assert r[i] == cart[i];
        }
      }
    } else {
      var k := FindIndex(cart, item.productId).value;
      assert r[k].productId == item.productId;
      forall x ensures HasId(r, x) <==> HasId(cart, x) {
        if HasId(cart, x) {
          var i :| 0 <= i < |cart| && cart[i].productId == x;
          assert r[i].productId == x;
        }
        if HasId(r, x) {
          var i :| 0 <= i < |r| && r[i].productId == x;
          assert cart[i].productId == x;
        }
      }
    }
  }

  /** Adding keeps the cart invariant: a new line holds 1, an increment never passes the new stock. */
  lemma AddKeepsWellFormed(cart: seq<CartItem>, item: NewItem)
    requires WellFormed(cart)
    ensures WellFormed(AddToCart(cart, item))
  {
    AddKeepsKeys(cart, item);
    var r := AddToCart(cart, item);
    if HasId(cart, item.productId) {
      var k := FindIndex(cart, item.productId).value;
      forall i | 0 <= i < |r| ensures LineInBounds(r[i]) {
        if cart[i].productId == item.productId {
          assert i == k;
        }
      }
    }
  }

  /**
   * Adding the same new product twice: one line whose quantity is 2 when the
   * stock allows it and 1 otherwise; the first add never looks at the stock.
   */
  lemma AddTwice(cart: seq<CartItem>, item: NewItem)
    requires !HasId(cart, item.productId)
    ensures var r := AddToCart(AddToCart(cart, item), item);
      |r| == |cart| + 1 && r[..|cart|] == cart &&
      r[|cart|] == NewLine(item).(quantity := if item.stock >= 2 then 2 else 1)
  {
    var id := item.productId;
    var once := AddToCart(cart, item);
    assert once == cart + [NewLine(item)];
    assert HasId(once, id) by {
      assert once[|cart|].productId == id;
    }
    assert FindIndex(once, id) == Some(|cart|) by {
      assert forall j | 0 <= j < |cart| :: once[j] == cart[j];
    }
    var twice := AddToCart(once, item);
    if item.stock >= 2 {
      forall i | 0 <= i < |cart| ensures twice[i] == cart[i] {
        assert once[i] == cart[i];
      }
    }
  }

  /** With unique ids, an add that does not hit the stock limit increments exactly the line that has the id. */
  lemma AddIncrementsOneLine(cart: seq<CartItem>, item: NewItem)
    requires UniqueIds(cart) && HasId(cart, item.productId) && Found(cart, item.productId).quantity < item.stock
    ensures var k := FindIndex(cart, item.productId).value;
      AddToCart(cart, item) == cart[k := cart[k].(quantity := cart[k].quantity + 1, stock := item.stock)]
  {
    var id := item.productId;
    var k := FindIndex(cart, id).value;
    var r := AddToCart(cart, item);
    var expected := cart[k := cart[k].(quantity := cart[k].quantity + 1, stock := item.stock)];
    assert |r| == |expected|;
    forall i | 0 <= i < |cart| ensures r[i] == expected[i] {
      if i != k {
        assert cart[k].productId == id;
        assert cart[i].productId != cart[k].productId;
      }
    }
    assert r == expected;
  }

  /** Removing from a cart with unique ids deletes exactly the line that holds the id. */
  lemma {:induction false} RemoveUniqueLine(cart: seq<CartItem>, k: nat)
    requires UniqueIds(cart) && k < |cart|
    ensures RemoveFromCart(cart, cart[k].productId) == cart[..k] + cart[k + 1..]
  {
    var id := cart[k].productId;
    var pre, post := cart[..k], cart[k + 1..];
    assert !HasId(pre, id) by {
      forall i | 0 <= i < |pre| ensures pre[i].productId != id {
        assert pre[i] == cart[i];
      }
    }
    assert !HasId(post, id) by {
      forall i | 0 <= i < |post| ensures post[i].productId != id {
        assert post[i] == cart[k + 1 + i];
      }
    }
    assert cart == pre + ([cart[k]] + post);
    RemoveAppend(pre, [cart[k]] + post, id);
    assert RemoveFromCart([cart[k]] + post, id) == RemoveFromCart(post, id);
  }

  /** `filter` distributes over concatenation. */
  lemma {:induction false} RemoveAppend(a: seq<CartItem>, b: seq<CartItem>, id: string)
    ensures RemoveFromCart(a + b, id) == RemoveFromCart(a, id) + RemoveFromCart(b, id)
    decreases |a|
  {
    if a == [] {
      assert a + b == b;
    } else {
      assert (a + b)[1..] == a[1..] + b;
      RemoveAppend(a[1..], b, id);
    }
  }

  /** The tail of a well-formed cart is well formed. */
  lemma WellFormedTail(cart: seq<CartItem>)
    requires WellFormed(cart) && cart != []
    ensures WellFormed(cart[1..])
  {
    UniqueTail(cart);
    var tail := cart[1..];
    forall i | 0 <= i < |tail| ensures LineInBounds(tail[i]) {
      assert tail[i] == cart[i + 1];
    }
  }

  /** The tail of a unique-id cart has unique ids. */
  lemma UniqueTail(cart: seq<CartItem>)
    requires UniqueIds(cart) && cart != []
    ensures UniqueIds(cart[1..])
  {
    var tail := cart[1..];
    forall i, j | 0 <= i < j < |tail| ensures tail[i].productId != tail[j].productId {
      assert tail[i] == cart[i + 1] && tail[j] == cart[j + 1];
    }
  }


  /** Removing twice is removing once; removing an absent id is a no-op. */
  lemma RemoveIdempotent(cart: seq<CartItem>, id: string)
    ensures RemoveFromCart(RemoveFromCart(cart, id), id) == RemoveFromCart(cart, id)
  {
  }

  /** Removing keeps the cart invariant. */
  lemma {:induction false} RemoveKeepsWellFormed(cart: seq<CartItem>, id: string)
    requires WellFormed(cart)
    ensures WellFormed(RemoveFromCart(cart, id))
    decreases |cart|
  {
    if cart != [] {
      var tail := cart[1..];
      WellFormedTail(cart);
      RemoveKeepsWellFormed(tail, id);
      var rest := RemoveFromCart(tail, id);
      if cart[0].productId != id {
        HeadIdNotInTail(cart);
        ConsKeepsWellFormed(cart[0], rest);
      }
    }
  }

  /** A line whose id is not in a well-formed cart can be put in front of it. */
  lemma ConsKeepsWellFormed(line: CartItem, cart: seq<CartItem>)
    requires WellFormed(cart) && LineInBounds(line) && !HasId(cart, line.productId)
    ensures WellFormed([line] + cart)
  {
    var r := [line] + cart;
    forall i, j | 0 <= i < j < |r| ensures r[i].productId != r[j].productId {
      assert r[j] == cart[j - 1];
      if i > 0 {
        assert r[i] == cart[i - 1];
      }
    }
    forall i | 0 <= i < |r| ensures LineInBounds(r[i]) {
      if i > 0 { assert r[i] == cart[i - 1]; }
    }
  }

  /** In a unique-id cart the first line's id does not occur again. */
  lemma HeadIdNotInTail(cart: seq<CartItem>)
    requires UniqueIds(cart) && cart != []
    ensures !HasId(cart[1..], cart[0].productId)
  {
    var tail := cart[1..];
    forall t | 0 <= t < |tail| ensures tail[t].productId != cart[0].productId {
      assert tail[t] == cart[t + 1];
    }
  }


  /**
   * With unique ids, `updateQty` on a line either changes nothing or sets
   * just that line's quantity to `min(qty, stock)`, a value in `[1, stock]`.
   */
  lemma UpdateQtyUnique(cart: seq<CartItem>, k: nat, qty: int)
    requires UniqueIds(cart) && k < |cart|
    ensures var m := Min(qty, cart[k].stock);
      UpdateQty(cart, cart[k].productId, qty) ==
        if m < 1 then cart else cart[k := cart[k].(quantity := m)]
  {
    FoundUnique(cart, k);
  }

  /** `updateQty` keeps the cart invariant. */
  lemma UpdateQtyKeepsWellFormed(cart: seq<CartItem>, id: string, qty: int)
    requires WellFormed(cart)
    ensures WellFormed(UpdateQty(cart, id, qty))
  {
    var r := UpdateQty(cart, id, qty);
    if HasId(cart, id) && Min(qty, Found(cart, id).stock) >= 1 {
      var k := FindIndex(cart, id).value;
      forall i | 0 <= i < |r| ensures LineInBounds(r[i]) && r[i].productId == cart[i].productId {
        if cart[i].productId == id { assert i == k; }
      }
    }
  }

  /** Setting the same quantity twice is setting it once. */
  lemma UpdateQtyIdempotent(cart: seq<CartItem>, id: string, qty: int)
    ensures UpdateQty(UpdateQty(cart, id, qty), id, qty) == UpdateQty(cart, id, qty)
  {
    var once := UpdateQty(cart, id, qty);
    if HasId(cart, id) && Min(qty, Found(cart, id).stock) >= 1 {
      var k := FindIndex(cart, id).value;
      assert FindIndex(once, id) == Some(k) by {
        assert forall j | 0 <= j < |cart| :: once[j].productId == cart[j].productId;
      }
      assert once[k].stock == cart[k].stock;
    }
  }

  /** `updateStock` with a positive stock keeps the cart invariant. */
  lemma UpdateStockKeepsWellFormed(cart: seq<CartItem>, id: string, newStock: int)
    requires WellFormed(cart) && newStock >= 1
    ensures WellFormed(UpdateStock(cart, id, newStock))
  {
    var r := UpdateStock(cart, id, newStock);
    assert forall i | 0 <= i < |r| :: r[i].productId == cart[i].productId;
  }

  /** `updateStock` keeps every line's id, so ids stay unique whatever the new stock, zero or negative included. */
  lemma UpdateStockKeepsIds(cart: seq<CartItem>, id: string, newStock: int)
    ensures var r := UpdateStock(cart, id, newStock);
      (forall i | 0 <= i < |cart| :: r[i].productId == cart[i].productId) &&
      (UniqueIds(cart) ==> UniqueIds(r))
  {
    var r := UpdateStock(cart, id, newStock);
    assert forall i | 0 <= i < |cart| :: r[i].productId == cart[i].productId;
  }

  /**
   * `updateStock` to zero or less breaks the quantity floor: the line's
   * quantity becomes `min(quantity, newStock)`, which is at most 0.
   */
  lemma UpdateStockNonPositive(cart: seq<CartItem>, id: string, newStock: int)
    requires HasId(cart, id) && newStock <= 0
    ensures !WellFormed(UpdateStock(cart, id, newStock))
    ensures forall i | 0 <= i < |cart| && cart[i].productId == id && cart[i].quantity >= newStock ::
      UpdateStock(cart, id, newStock)[i].quantity == newStock
  {
    var i :| 0 <= i < |cart| && cart[i].productId == id;
    assert !LineInBounds(UpdateStock(cart, id, newStock)[i]);
  }

  /** Setting the same stock twice is setting it once. */
  lemma UpdateStockIdempotent(cart: seq<CartItem>, id: string, newStock: int)
    ensures UpdateStock(UpdateStock(cart, id, newStock), id, newStock) == UpdateStock(cart, id, newStock)
  {
  }

  /** Merging the same patch twice is merging it once, even a patch that rewrites the id. */
  lemma UpdateCartItemIdempotent(cart: seq<CartItem>, id: string, patch: CartPatch)
    ensures UpdateCartItem(UpdateCartItem(cart, id, patch), id, patch) == UpdateCartItem(cart, id, patch)
  {
  }

  /** A patch that does not rewrite the id keeps the id of every line, hence the key invariant. */
  lemma UpdateCartItemKeepsIds(cart: seq<CartItem>, id: string, patch: CartPatch)
    requires patch.productId.None?
    ensures var r := UpdateCartItem(cart, id, patch);
      (forall i | 0 <= i < |cart| :: r[i].productId == cart[i].productId) &&
      (UniqueIds(cart) ==> UniqueIds(r))
  {
  }

  /** A patch that rewrites none of the id, quantity and stock keeps the cart invariant. */
  lemma UpdateCartItemKeepsWellFormed(cart: seq<CartItem>, id: string, patch: CartPatch)
    requires patch.productId.None? && patch.quantity.None? && patch.stock.None?
    requires WellFormed(cart)
    ensures WellFormed(UpdateCartItem(cart, id, patch))
  {
    UpdateCartItemKeepsIds(cart, id, patch);
    var r := UpdateCartItem(cart, id, patch);
    assert forall i | 0 <= i < |r| :: r[i].quantity == cart[i].quantity && r[i].stock == cart[i].stock;
  }

  /** The description back-fill changes only the matching line's description. */
  lemma BackfillOnlyDescription(cart: seq<CartItem>, id: string, description: string)
    ensures var r := UpdateCartItem(cart, id, DescriptionPatch(description));
      forall i | 0 <= i < |cart| ::
        r[i] == if cart[i].productId == id then cart[i].(description := description) else cart[i]
  {
  }

  /** An empty patch changes nothing. */
  lemma UpdateCartItemEmpty(cart: seq<CartItem>, id: string)
    ensures UpdateCartItem(cart, id, EmptyPatch) == cart
  {
  }
}
