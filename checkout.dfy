/**
 * The checkout page: the order payload built from the cart, the total sent
 * with it, when the pay button is enabled, which error message is shown, how
 * a message is styled, and what the payment handler does once the payment
 * is verified. The HTTP calls and the payment widget are outside the model:
 * their outcome is a parameter.
 */
module Checkout {
  import opened Wrappers
  import opened Context
  import opened Orders
  import CartPage
  import AppContext
  import Text

  /** `cart.map((c) => ({ productId, quantity, price }))`. */
  function Payload(cart: seq<CartItem>): (lines: seq<OrderLine>)
    ensures |lines| == |cart|
    ensures forall i | 0 <= i < |cart| ::
      lines[i].productId == cart[i].productId && lines[i].quantity == cart[i].quantity && lines[i].price == cart[i].price
  {
    seq(|cart|, i requires 0 <= i < |cart| => OrderLine(cart[i].productId, cart[i].quantity, cart[i].price))
  }

  /** The sum of `price * quantity` over an order's lines. */
  function LinesTotal(lines: seq<OrderLine>): int
    decreases |lines|
  {
    if lines == [] then 0 else LinesTotal(lines[..|lines| - 1]) + lines[|lines| - 1].price * lines[|lines| - 1].quantity
  }

  /** The payload carries the cart's total and the cart's item count. */
  lemma {:induction false} PayloadSums(cart: seq<CartItem>)
    ensures LinesTotal(Payload(cart)) == CartPage.Total(cart)
    ensures QuantitySum(Payload(cart)) == CartPage.ItemCount(cart)
    decreases |cart|
  {
    if cart != [] {
      var init := cart[..|cart| - 1];
      assert Payload(cart)[..|cart| - 1] == Payload(init);
      PayloadSums(init);
    }
  }

  /** The body posted to `/orders`. */
  datatype OrderRequest = OrderRequest(products: seq<OrderLine>, totalAmount: int)

  /** `{ products, totalAmount: total }`: the amount sent equals the sum over the lines sent. */
  function CreateOrderRequest(cart: seq<CartItem>): (req: OrderRequest)
    ensures req.products == Payload(cart)
    ensures req.totalAmount == LinesTotal(req.products) == CartPage.Total(cart)
  {
    PayloadSums(cart);
    OrderRequest(Payload(cart), CartPage.Total(cart))
  }

  /** The order history counts the same number of items for an order placed from a cart as the cart page did. */
  lemma PlacedOrderItemCount(cart: seq<CartItem>, id: string, status: string, createdAt: string)
    ensures var req := CreateOrderRequest(cart);
      ItemCount(Order(id, req.totalAmount, status, createdAt, Some(req.products))) == CartPage.ItemCount(cart)
  {
    PayloadSums(cart);
  }

  /** `disabled={processing || total === 0}`. */
  function PayDisabled(processing: bool, cart: seq<CartItem>): (disabled: bool)
    ensures disabled <==> processing || CartPage.Total(cart) == 0
    ensures cart == [] ==> disabled
  {
    processing || CartPage.Total(cart) == 0
  }

  /** What `pay` can catch: a request error with the server's and its own message, or any other failure. */
  datatype PayError = RequestError(serverMessage: Option<string>, message: string) | OtherError

  const PaymentFailed := "Payment failed"
  const PaymentSuccessful := "Payment successful"

  /**
   * `err.response?.data?.message || err.message || "Payment failed"` for a
   * request error, `"Payment failed"` for any other: the first non-empty of
   * the three, so a message is always shown.
   */
  function ErrorMessage(e: PayError): (m: string)
    ensures m != ""
    ensures e.OtherError? ==> m == PaymentFailed
    ensures e.RequestError? && e.serverMessage.Some? && e.serverMessage.value != "" ==> m == e.serverMessage.value
    ensures e.RequestError? && (e.serverMessage.None? || e.serverMessage.value == "") ==>
      m == if e.message != "" then e.message else PaymentFailed
  {
    match e
    case OtherError => PaymentFailed
    case RequestError(server, message) =>
      if server.Some? && server.value != "" then server.value
      else if message != "" then message
      else PaymentFailed
  }

  /** `msg.includes("successful")` selects the green style. */
  predicate IsSuccessStyle(msg: string): (green: bool)
    ensures green <==> exists i: nat :: Text.OccursAt(msg, "successful", i)
  {
    Text.ContainsIff(msg, "successful");
    Text.Contains(msg, "successful")
  }

  /** The success message is styled green. */
  lemma SuccessMessageStyle()
    ensures IsSuccessStyle(PaymentSuccessful)
  {
    assert PaymentSuccessful[8..8 + |"successful"|] == "successful";
    Text.ContainsAt(PaymentSuccessful, "successful", 8);
  }

  /** The fallback error is styled red. */
  lemma FailureMessageStyle()
    ensures !IsSuccessStyle(PaymentFailed)
  {
    Text.ContainsFirstChar(PaymentFailed, "successful");
  }

  class CheckoutPage {
    const app: AppContext.AppProvider
    var processing: bool
    var msg: string

    constructor (app: AppContext.AppProvider)
      ensures this.app == app && !processing && msg == ""
    {
      this.app := app;
      processing := false;
      msg := "";
    }

    /** `useEffect(() => setMsg(""), [cart])`: a change of the cart clears the message. */
    method CartChanged()
      modifies this`msg
      ensures msg == ""
    {
      msg := "";
    }

    /**
     * `pay`: the order request built from the cart is posted; `failure` is
     * the error one of the requests or the widget's loader throws, if any,
     * whose message is then shown. Processing is off again when `pay` returns.
     */
    method Pay(failure: Option<PayError>) returns (request: OrderRequest)
      modifies this`processing, this`msg
      ensures request == CreateOrderRequest(app.cart)
      ensures request.totalAmount == CartPage.Total(app.cart)
      ensures !processing
      ensures failure.Some? ==> msg == ErrorMessage(failure.value)
      ensures failure.Some? && ErrorMessage(failure.value) == PaymentFailed ==> !IsSuccessStyle(msg)
      ensures failure.None? ==> msg == old(msg)
    {
      processing := true;
      request := CreateOrderRequest(app.cart);
      if failure.Some? {
        msg := ErrorMessage(failure.value);
        FailureMessageStyle();
      }
      processing := false;
    }

    /**
     * The payment handler as written: on `ok` it sets the success message
     * and clears the cart, and the cart change then clears the message, so
     * the success message does not stay on screen.
     */
    method OnVerified(ok: bool)
      modifies this`msg, app`cart, app.storage`cart
      ensures ok ==> app.cart == [] && app.Persisted() && msg == ""
      ensures !ok ==> msg == old(msg) && app.cart == old(app.cart) && app.storage.cart == old(app.storage.cart)
    {
      if ok {
        msg := PaymentSuccessful;
        app.ClearCart();
        CartChanged();
      }
    }

    /**
     * The handler as intended: the cart is cleared only on `ok`, and the
     * success message survives that clear and is styled as a success.
     */
    method OnVerifiedKeepingMessage(ok: bool)
      modifies this`msg, app`cart, app.storage`cart
      ensures ok ==> app.cart == [] && app.Persisted() && msg == PaymentSuccessful && IsSuccessStyle(msg)
      ensures !ok ==> msg == old(msg) && app.cart == old(app.cart) && app.storage.cart == old(app.storage.cart)
    {
      if ok {
        app.ClearCart();
        msg := PaymentSuccessful;
        SuccessMessageStyle();
      }
    }
  }
}
