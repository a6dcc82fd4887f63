/**
 * The order history page: an order's item count, its status badge style
 * with the gray fallback, and the label built from the last six characters
 * of its id. The admin page repeats the same style table and item count.
 */
module Orders {
  import opened Wrappers
  import opened Decimal
  import Text

  /** One product of an order, as checkout sends it and the API returns it. */
  datatype OrderLine = OrderLine(productId: string, quantity: int, price: int)

  /** An order; `products` is optional in the API's answer. */
  datatype Order = Order(id: string, totalAmount: int, orderStatus: string, createdAt: string, products: Option<seq<OrderLine>>)

  /** `products.reduce((sum, p) => sum + p.quantity, 0)`. */
  function QuantitySum(lines: seq<OrderLine>): (q: int)
    ensures (forall i | 0 <= i < |lines| :: lines[i].quantity >= 1) ==> q >= |lines|
    decreases |lines|
  {
    if lines == [] then 0 else QuantitySum(lines[..|lines| - 1]) + lines[|lines| - 1].quantity
  }

  /** The quantity sum distributes over concatenation, and bounds: non-negative quantities give a non-negative sum. */
  lemma {:induction false} QuantitySumAppend(a: seq<OrderLine>, b: seq<OrderLine>)
    ensures QuantitySum(a + b) == QuantitySum(a) + QuantitySum(b)
    decreases |b|
  {
    if b == [] {
      assert a + b == a;
    } else {
      assert (a + b)[..|a + b| - 1] == a + b[..|b| - 1];
      QuantitySumAppend(a, b[..|b| - 1]);
    }
  }

  lemma {:induction false} QuantitySumNonNegative(lines: seq<OrderLine>)
    requires forall i | 0 <= i < |lines| :: lines[i].quantity >= 0
    ensures QuantitySum(lines) >= 0
    decreases |lines|
  {
    if lines != [] {
      QuantitySumNonNegative(lines[..|lines| - 1]);
    }
  }

  /** `o.products?.reduce(...) ?? 0`: the sum of quantities, 0 when the products are absent. */
  function ItemCount(o: Order): (n: int)
    ensures o.products.None? ==> n == 0
    ensures o.products.Some? ==> n == QuantitySum(o.products.value)
  {
    match o.products
    case None => 0
    case Some(lines) => QuantitySum(lines)
  }

  /** The "• n item(s)" text, rendered only when the products are present. */
  function ItemCountText(o: Order): (t: Option<string>)
    ensures t.None? <==> o.products.None?
    ensures t.Some? ==> t.value == "\U{2022} " + IntToString(ItemCount(o)) + " item(s)"
  {
    if o.products.Some? then Some("\U{2022} " + IntToString(ItemCount(o)) + " item(s)") else None
  }

  const StatusStyles: map<string, string> := map[
    "pending" := "bg-amber-100 text-amber-800 border-amber-200",
    "paid" := "bg-emerald-100 text-emerald-800 border-emerald-200",
    "failed" := "bg-red-100 text-red-800 border-red-200",
    "shipped" := "bg-sky-100 text-sky-800 border-sky-200",
    "delivered" := "bg-green-100 text-green-800 border-green-200"]

  const FallbackStyle := "bg-gray-100 text-gray-800 border-gray-200"

  /** `statusStyles[status] || fallback`: the table's entry for a known status, the gray style otherwise. */
  function StatusStyle(status: string): (style: string)
    ensures status in StatusStyles ==> style == StatusStyles[status]
    ensures status !in StatusStyles ==> style == FallbackStyle
  {
    if status in StatusStyles && StatusStyles[status] != "" then StatusStyles[status] else FallbackStyle
  }

  /** The style table knows exactly five statuses. */
  lemma StatusStylesKeys()
    ensures StatusStyles.Keys == {"pending", "paid", "failed", "shipped", "delivered"}
  {
  }

  /** Each known status has its own style, none of them the fallback. */
  lemma StatusStylesDistinct()
    ensures forall s | s in StatusStyles :: StatusStyles[s] != FallbackStyle
    ensures forall s, t | s in StatusStyles && t in StatusStyles && s != t :: StatusStyles[s] != StatusStyles[t]
  {
    StatusStylesKeys();
    var pending, paid, failed := StatusStyles["pending"], StatusStyles["paid"], StatusStyles["failed"];
    var shipped, delivered := StatusStyles["shipped"], StatusStyles["delivered"];
    assert pending == "bg-amber-100 text-amber-800 border-amber-200";
    assert paid == "bg-emerald-100 text-emerald-800 border-emerald-200";
    assert failed == "bg-red-100 text-red-800 border-red-200";
    assert shipped == "bg-sky-100 text-sky-800 border-sky-200";
    assert delivered == "bg-green-100 text-green-800 border-green-200";
    // The styles tell apart by their lengths, and those of equal length by
    // the first letter of their colour.
    assert |pending| == 44 && |paid| == 50 && |failed| == 38 && |shipped| == 38 && |delivered| == 44 && |FallbackStyle| == 41;
    assert pending[3] == 'a' && delivered[3] == 'g';
    assert failed[3] == 'r' && shipped[3] == 's';
  }

  /** `_id.slice(-6)`. */
  function IdSuffix(id: string): (s: string)
    ensures |s| == if |id| < 6 then |id| else 6
    ensures id == id[..|id| - |s|] + s
  {
    Text.LastChars(id, 6)
  }

  /** "Order #" followed by the id's suffix. */
  function OrderLabel(o: Order): (caption: string)
    ensures caption == "Order #" + IdSuffix(o.id)
    ensures |o.id| <= 6 ==> caption == "Order #" + o.id
  {
    "Order #" + IdSuffix(o.id)
  }
}
