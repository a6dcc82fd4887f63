/**
 * The cart page: the total and item-count folds, a line's subtotal, the
 * quantity input (its parse fallback and the clamping wrapper around
 * `updateQty`), the per-line refresh of stock and description from fetched
 * product data, and the description truncated at 100 characters.
 */
module CartPage {
  import opened Wrappers
  import opened Context
  import opened Decimal
  import opened Expandable
  import opened CartOps
  import Products
  import AppContext

  /** A line's subtotal, `price * quantity`. */
  function Subtotal(line: CartItem): (s: int)
    ensures line.price >= 0 && line.quantity >= 0 ==> s >= 0
    ensures line.quantity == 1 ==> s == line.price
  {
    line.price * line.quantity
  }

  /** `cart.reduce((sum, i) => sum + i.price * i.quantity, 0)`. */
  function Total(cart: seq<CartItem>): (t: int)
    ensures (forall i | 0 <= i < |cart| :: cart[i].price >= 0 && cart[i].quantity >= 0) ==> t >= 0
    decreases |cart|
  {
    if cart == [] then 0 else Total(cart[..|cart| - 1]) + Subtotal(cart[|cart| - 1])
  }

  /** `cart.reduce((sum, item) => sum + item.quantity, 0)`. */
  function ItemCount(cart: seq<CartItem>): (n: int)
    ensures (forall i | 0 <= i < |cart| :: cart[i].quantity >= 1) ==> n >= |cart|
    decreases |cart|
  {
    if cart == [] then 0 else ItemCount(cart[..|cart| - 1]) + cart[|cart| - 1].quantity
  }

  /** Both folds distribute over concatenation; the empty cart sums to 0. */
  lemma {:induction false} SumsAppend(a: seq<CartItem>, b: seq<CartItem>)
    ensures Total(a + b) == Total(a) + Total(b)
    ensures ItemCount(a + b) == ItemCount(a) + ItemCount(b)
    ensures Total([]) == 0 && ItemCount([]) == 0
    decreases |b|
  {
    if b != [] {
      var b' := b[..|b| - 1];
      assert (a + b)[..|a + b| - 1] == a + b';
      SumsAppend(a, b');
    } else {
      assert a + b == a;
    }
  }

  /** The sums of one line, and of a cart split around a line. */
  lemma SumsAround(cart: seq<CartItem>, k: nat)
    requires k < |cart|
    ensures Total(cart) == Total(cart[..k] + cart[k + 1..]) + Subtotal(cart[k])
    ensures ItemCount(cart) == ItemCount(cart[..k] + cart[k + 1..]) + cart[k].quantity
  {
    var pre, post := cart[..k], cart[k + 1..];
    assert cart[..k + 1] == pre + [cart[k]];
    assert cart == cart[..k + 1] + post;
    SumsAppend(cart[..k + 1], post);
    SumsAppend(pre, [cart[k]]);
    SumsAppend(pre, post);
    SumsSingle(cart[k]);
  }

  lemma SumsSingle(line: CartItem)
    ensures Total([line]) == Subtotal(line) && ItemCount([line]) == line.quantity
  {
    assert [line][..0] == [];
  }

  /** Replacing one line changes the sums by the difference of the two lines. */
  lemma SumsReplace(cart: seq<CartItem>, k: nat, line: CartItem)
    requires k < |cart|
    ensures Total(cart[k := line]) == Total(cart) - Subtotal(cart[k]) + Subtotal(line)
    ensures ItemCount(cart[k := line]) == ItemCount(cart) - cart[k].quantity + line.quantity
  {
    var c := cart[k := line];
    SumsAround(cart, k);
    SumsAround(c, k);
    assert c[..k] + c[k + 1..] == cart[..k] + cart[k + 1..];
  }

  /**
   * Adding either changes nothing or adds one unit: the total rises by the
   * price of the line, which for a product already in the cart is the price
   * stored when it was first added, not the one passed now.
   */
  lemma SumsAfterAdd(cart: seq<CartItem>, item: NewItem)
    requires UniqueIds(cart)
    ensures var r := AddToCart(cart, item);
      (r == cart) ||
      (Total(r) == Total(cart) + (if HasId(cart, item.productId) then Found(cart, item.productId).price else item.price) &&
       ItemCount(r) == ItemCount(cart) + 1)
  {
    var r := AddToCart(cart, item);
    if !HasId(cart, item.productId) {
      SumsAppend(cart, [NewLine(item)]);
      assert [NewLine(item)][..0] == [];
      assert r == cart + [NewLine(item)];
    } else if Found(cart, item.productId).quantity < item.stock {
      var k := FindIndex(cart, item.productId).value;
      AddIncrementsOneLine(cart, item);
      SumsAfterIncrement(cart, k, item.stock);
    }
  }

  /** One more unit on line `k` adds its price to the total and 1 to the item count. */
  lemma SumsAfterIncrement(cart: seq<CartItem>, k: nat, stock: int)
    requires k < |cart|
    ensures var r := cart[k := cart[k].(quantity := cart[k].quantity + 1, stock := stock)];
      Total(r) == Total(cart) + cart[k].price && ItemCount(r) == ItemCount(cart) + 1
  {
    var line := cart[k].(quantity := cart[k].quantity + 1, stock := stock);
    SumsReplace(cart, k, line);
    UnitMore(cart[k].price, cart[k].quantity);
  }

  /** One more unit of a line costs one more unit price. */
  lemma UnitMore(price: int, quantity: int)
    ensures price * (quantity + 1) == price * quantity + price
  {
  }

  /** Removing a line of a unique-id cart lowers the sums by exactly that line. */
  lemma SumsAfterRemove(cart: seq<CartItem>, k: nat)
    requires UniqueIds(cart) && k < |cart|
    ensures var r := RemoveFromCart(cart, cart[k].productId);
      Total(r) == Total(cart) - Subtotal(cart[k]) && ItemCount(r) == ItemCount(cart) - cart[k].quantity
  {
    RemoveUniqueLine(cart, k);
    SumsAround(cart, k);
  }

  /**
   * The stock scenario: one line of price 100, quantity 2, stock 2 totals
   * 200; after `updateStock` to 1 its quantity is 1 and the total 100.
   */
  lemma StockScenario(line: CartItem)
    requires line.price == 100 && line.quantity == 2 && line.stock == 2
    ensures Total([line]) == 200
    ensures UpdateStock([line], line.productId, 1) == [line.(stock := 1, quantity := 1)]
    ensures Total(UpdateStock([line], line.productId, 1)) == 100
  {
    var r := UpdateStock([line], line.productId, 1);
    assert r[..0] == [] && [line][..0] == [];
  }

  /** `Math.max(lo, Math.min(x, hi))` for lo <= hi. */
  function Clamp(x: int, lo: int, hi: int): (c: int)
    requires lo <= hi
    ensures lo <= c <= hi
    ensures lo <= x <= hi ==> c == x
    ensures x < lo ==> c == lo
    ensures x > hi ==> c == hi
  {
    if x < lo then lo else if x > hi then hi else x
  }

  /**
   * `handleQtyChange`: the quantity it passes to `updateQty`, or `None` when
   * it issues no update. An update is issued exactly when the line has stock
   * left, and the quantity it asks for is the input clamped into `[1, stock]`.
   */
  function QtyRequest(item: CartItem, newQty: int): (r: Option<int>)
    ensures r.None? <==> item.stock <= 0
    ensures r.Some? ==> r.value == Clamp(newQty, 1, item.stock)
    ensures Min(newQty, item.stock) >= 1 ==> r == Some(Min(newQty, item.stock))
  {
    var maxQty := Min(newQty, item.stock);
    if maxQty < 1 && item.stock > 0 then Some(1)
    else if maxQty >= 1 then Some(maxQty)
    else None
  }

  /**
   * The quantity input followed by the store: for a line of a unique-id cart
   * with stock left, the line ends with the input clamped into `[1, stock]`
   * and nothing else changes; with no stock left nothing changes at all.
   */
  lemma QtyChangeOutcome(cart: seq<CartItem>, k: nat, newQty: int)
    requires UniqueIds(cart) && k < |cart|
    ensures var item := cart[k];
      var r := match QtyRequest(item, newQty)
        case None => cart
        case Some(q) => UpdateQty(cart, item.productId, q);
      if item.stock > 0 then r == cart[k := item.(quantity := Clamp(newQty, 1, item.stock))]
      else r == cart
  {
    var item := cart[k];
    if item.stock > 0 {
      var q := QtyRequest(item, newQty).value;
      UpdateQtyUnique(cart, k, q);
    }
  }

  /** `parseInt(e.target.value) || 1`: `NaN` and `0` both become 1. */
  function QtyInputValue(value: string): (q: int)
    ensures q != 0
    ensures ParseInt(value).Some? && ParseInt(value).value != 0 ==> q == ParseInt(value).value
    ensures ParseInt(value).None? || ParseInt(value) == Some(0) ==> q == 1
  {
    match ParseInt(value)
    case Some(v) => if v != 0 then v else 1
    case None => 1
  }

  /** A typed positive numeral is read as itself; an empty input as 1. */
  lemma QtyInputReadsNumerals(n: nat)
    ensures n >= 1 ==> QtyInputValue(NatToString(n)) == n
    ensures QtyInputValue("") == 1
    ensures QtyInputValue("0") == 1
  {
    ParseIntOfNat(n);
    ParseIntOfNat(0);
    ParseIntWithoutDigits("");
  }

  /** A line's stock badge and the state of its quantity input. */
  datatype StockView = StockView(badge: string, inStock: bool, inputDisabled: bool, maxHint: Option<int>)

  /**
   * "Stock Available: n" in green while stock is left, "Out of Stock" in red
   * otherwise; the input is disabled only at a stock of exactly 0, and the
   * "(Max: n)" hint is shown while stock is left.
   */
  function LineStock(item: CartItem): (v: StockView)
    ensures v.inStock <==> item.stock > 0
    ensures v.inStock ==> v.badge == "Stock Available: " + IntToString(item.stock) && v.maxHint == Some(item.stock)
    ensures !v.inStock ==> v.badge == "Out of Stock" && v.maxHint.None?
    ensures v.inputDisabled <==> item.stock == 0
  {
    if item.stock > 0 then StockView("Stock Available: " + IntToString(item.stock), true, false, Some(item.stock))
    else StockView("Out of Stock", false, item.stock == 0, None)
  }

  /**
   * A negative stock reads "Out of Stock" yet leaves the input enabled, and
   * a change typed into it issues no update.
   */
  lemma NegativeStockInput(item: CartItem, newQty: int)
    requires item.stock < 0
    ensures LineStock(item).badge == "Out of Stock" && !LineStock(item).inputDisabled
    ensures QtyRequest(item, newQty).None?
  {
  }

  /** `handleQtyChange` against the store: an update through `updateQty` when `QtyRequest` asks for one. */
  method HandleQtyChange(app: AppContext.AppProvider, item: CartItem, newQty: int)
    modifies app`cart, app.storage`cart
    ensures QtyRequest(item, newQty).None? ==> app.cart == old(app.cart) && app.storage.cart == old(app.storage.cart)
    ensures QtyRequest(item, newQty).Some? ==>
      app.cart == UpdateQty(old(app.cart), item.productId, QtyRequest(item, newQty).value) && app.Persisted()
  {
    var maxQty := Min(newQty, item.stock);
    if maxQty < 1 && item.stock > 0 {
      app.UpdateQty(item.productId, 1);
    } else if maxQty >= 1 {
      app.UpdateQty(item.productId, maxQty);
    }
  }

  // ---------------------------------------------------------------------
  // Refreshing stock and description from the fetched products

  /** The updates the refresh issues for one line: a changed stock, and a description when the line has none. */
  datatype Refresh = Refresh(stock: Option<int>, description: Option<string>)

  function RefreshDecision(item: CartItem, data: Products.Product): (d: Refresh)
    ensures d.stock.Some? <==> data.stock != item.stock
    ensures d.stock.Some? ==> d.stock.value == data.stock
    ensures d.description.Some? <==> item.description == "" && data.description != ""
    ensures d.description.Some? ==> d.description.value == data.description
  {
    Refresh(
      if data.stock != item.stock then Some(data.stock) else None,
      if item.description == "" && data.description != "" then Some(data.description) else None)
  }

  /** The cart after the updates for one line are applied through the store's transforms. */
  function ApplyRefresh(cart: seq<CartItem>, item: CartItem, data: Products.Product): seq<CartItem>
  {
    var d := RefreshDecision(item, data);
    var afterStock := if d.stock.Some? then UpdateStock(cart, item.productId, d.stock.value) else cart;
    if d.description.Some? then UpdateCartItem(afterStock, item.productId, DescriptionPatch(d.description.value))
    else afterStock
  }

  /**
   * The line a refreshed line becomes: it carries the fetched stock, its
   * quantity re-clamped if the stock changed, and the fetched description if
   * it had none; title, price and image are kept.
   */
  function RefreshedLine(item: CartItem, data: Products.Product): (r: CartItem)
    ensures r.stock == data.stock
    ensures r.quantity == if data.stock != item.stock then Min(item.quantity, data.stock) else item.quantity
    ensures r.description == if item.description == "" then data.description else item.description
    ensures r.productId == item.productId && r.title == item.title && r.price == item.price && r.image == item.image
  {
    var withStock := if data.stock != item.stock
      then item.(stock := data.stock, quantity := Min(item.quantity, data.stock)) else item;
    if item.description == "" && data.description != "" then withStock.(description := data.description)
    else withStock
  }

  /** In a unique-id cart, refreshing a line rewrites exactly that line. */
  lemma RefreshOneLine(cart: seq<CartItem>, k: nat, data: Products.Product)
    requires UniqueIds(cart) && k < |cart|
    ensures ApplyRefresh(cart, cart[k], data) == cart[k := RefreshedLine(cart[k], data)]
  {
    var item := cart[k];
    var r := ApplyRefresh(cart, item, data);
    forall i | 0 <= i < |cart| ensures r[i] == cart[k := RefreshedLine(item, data)][i] {
      if i != k {
        assert cart[i].productId != item.productId;
      }
    }
  }

  /**
   * The refresh loop over the lines captured when it started, one fetched
   * product per line; a failed fetch (`None`) ends the loop, as the
   * exception leaves the `for` loop for the surrounding `catch`.
   */
  function Refreshed(cart: seq<CartItem>, items: seq<CartItem>, fetched: seq<Option<Products.Product>>): seq<CartItem>
    requires |fetched| == |items|
    decreases |items|
  {
    if items == [] || fetched[0].None? then cart
    else Refreshed(ApplyRefresh(cart, items[0], fetched[0].value), items[1..], fetched[1..])
  }

  /** Lines `j` onward of a not yet refreshed cart are refreshed one by one. */
  lemma {:induction false} RefreshedFrom(cart: seq<CartItem>, items: seq<CartItem>, fetched: seq<Option<Products.Product>>, j: nat)
    requires |cart| == |items| == |fetched| && j <= |items| && UniqueIds(items)
    requires forall i | 0 <= i < |items| :: fetched[i].Some?
    requires forall i | 0 <= i < |items| :: cart[i].productId == items[i].productId
    requires forall i | j <= i < |items| :: cart[i] == items[i]
    ensures var r := Refreshed(cart, items[j..], fetched[j..]);
      |r| == |items| &&
      (forall i | 0 <= i < j :: r[i] == cart[i]) &&
      (forall i | j <= i < |items| :: r[i] == RefreshedLine(items[i], fetched[i].value))
    decreases |items| - j
  {
    if j < |items| {
      assert UniqueIds(cart) by {
        forall a, b | 0 <= a < b < |cart| ensures cart[a].productId != cart[b].productId {
          assert items[a].productId != items[b].productId;
        }
      }
      var next := ApplyRefresh(cart, items[j], fetched[j].value);
      RefreshOneLine(cart, j, fetched[j].value);
      assert items[j..][1..] == items[j + 1..] && fetched[j..][1..] == fetched[j + 1..];
      assert Refreshed(cart, items[j..], fetched[j..]) == Refreshed(next, items[j + 1..], fetched[j + 1..]);
      RefreshedFrom(next, items, fetched, j + 1);
    }
  }

  /**
   * When every fetch succeeds, the refresh leaves each line of a unique-id
   * cart with its fetched stock, its quantity re-clamped to it, and its
   * description back-filled, in the original order.
   */
  lemma RefreshAll(cart: seq<CartItem>, fetched: seq<Option<Products.Product>>)
    requires |fetched| == |cart| && UniqueIds(cart)
    requires forall i | 0 <= i < |cart| :: fetched[i].Some?
    ensures var r := Refreshed(cart, cart, fetched);
      |r| == |cart| && forall i | 0 <= i < |cart| :: r[i] == RefreshedLine(cart[i], fetched[i].value)
  {
    RefreshedFrom(cart, cart, fetched, 0);
    assert cart[0..] == cart && fetched[0..] == fetched;
  }

  /**
   * The refresh effect: for each line captured at its start, await the
   * product and issue `updateStock` and `updateCartItem` as decided; a failed
   * fetch ends the loop. Concurrent edits between the awaits are not modelled.
   */
  method RefreshProductData(app: AppContext.AppProvider, fetched: seq<Option<Products.Product>>)
    requires |fetched| == |app.cart|
    requires app.Persisted()
    modifies app`cart, app.storage`cart
    ensures app.cart == Refreshed(old(app.cart), old(app.cart), fetched)
    ensures UniqueIds(old(app.cart)) ==> UniqueIds(app.cart)
    ensures app.Persisted()
  {
    var items := app.cart;
    if |items| == 0 {
      return;
    }
    var i := 0;
    while i < |items| && fetched[i].Some?
      invariant 0 <= i <= |items|
      invariant app.Persisted()
      invariant UniqueIds(items) ==> UniqueIds(app.cart)
      invariant Refreshed(app.cart, items[i..], fetched[i..]) == Refreshed(items, items, fetched)
    {
      assert items[i..][1..] == items[i + 1..] && fetched[i..][1..] == fetched[i + 1..];
      RefreshLine(app, items[i], fetched[i].value);
      i := i + 1;
    }
  }

  /** One turn of the refresh loop: `updateStock` and `updateCartItem` as `RefreshDecision` says. */
  method RefreshLine(app: AppContext.AppProvider, item: CartItem, data: Products.Product)
    requires app.Persisted()
    modifies app`cart, app.storage`cart
    ensures app.cart == ApplyRefresh(old(app.cart), item, data)
    ensures UniqueIds(old(app.cart)) ==> UniqueIds(app.cart)
    ensures app.Persisted()
  {
    if data.stock != item.stock {
      app.UpdateStock(item.productId, data.stock);
    }
    if item.description == "" && data.description != "" {
      app.UpdateCartItem(item.productId, DescriptionPatch(data.description));
    }
  }

  const CartDescriptionLength: nat := 100

  /**
   * A line's description block: absent for an empty description; otherwise
   * whole up to 100 characters, else its first 100 and "..." while collapsed.
   */
  function CartDescription(item: CartItem, expanded: bool): (v: Option<DescriptionView>)
    ensures v.None? <==> item.description == ""
    ensures v.Some? && |item.description| <= 100 ==> v.value.text == item.description && v.value.toggle.None?
    ensures v.Some? && |item.description| > 100 && !expanded ==> v.value.text == item.description[..100] + "..."
    ensures v.Some? && expanded ==> v.value.text == item.description
  {
    if item.description == "" then None
    else
      var v := Render(item.description, CartDescriptionLength, expanded);
      assert |item.description| > 100 && !expanded ==> v.text == v.text[..100] + v.text[100..];
      Some(v)
  }
}
