/**
 * The admin orders page: the status drop-down (its five statuses and their
 * capitalised labels) and the order label. Its item count and status badge
 * are the ones of the order history page.
 */
module AdminOrders {
  import opened Orders
  import Text

  /** The statuses an admin can choose, in this order. */
  const Statuses: seq<string> := ["pending", "paid", "failed", "shipped", "delivered"]

  /** `s.charAt(0).toUpperCase() + s.slice(1)`. */
  function OptionLabel(s: string): (caption: string)
    ensures |caption| == |s|
    ensures s != "" ==> caption[0] == Text.UpperChar(s[0]) && caption[1..] == s[1..]
  {
    Text.UpperFirst(s)
  }

  /** The drop-down reads Pending, Paid, Failed, Shipped, Delivered. */
  lemma OptionLabels()
    ensures seq(|Statuses|, i requires 0 <= i < |Statuses| => OptionLabel(Statuses[i]))
      == ["Pending", "Paid", "Failed", "Shipped", "Delivered"]
  {
    assert OptionLabel("pending") == "Pending" by { assert Text.UpperChar('p') == 'P'; }
    assert OptionLabel("paid") == "Paid" by { assert Text.UpperChar('p') == 'P'; }
    assert OptionLabel("failed") == "Failed" by { assert Text.UpperChar('f') == 'F'; }
    assert OptionLabel("shipped") == "Shipped" by { assert Text.UpperChar('s') == 'S'; }
    assert OptionLabel("delivered") == "Delivered" by { assert Text.UpperChar('d') == 'D'; }
  }

  /** The selectable statuses are distinct. */
  lemma StatusesDistinct()
    ensures forall i, j | 0 <= i < j < |Statuses| :: Statuses[i] != Statuses[j]
  {
  }

  /** The selectable statuses are exactly the statuses of the style table. */
  lemma StatusesAreStyled()
    ensures (set i | 0 <= i < |Statuses| :: Statuses[i]) == StatusStyles.Keys
  {
    StatusStylesDistinct();
    assert Statuses[0] == "pending" && Statuses[1] == "paid" && Statuses[2] == "failed";
    assert Statuses[3] == "shipped" && Statuses[4] == "delivered";
  }

  /** So every status an admin sets gets its own badge style, never the fallback. */
  lemma SelectedStatusStyle(i: nat)
    requires i < |Statuses|
    ensures StatusStyle(Statuses[i]) != FallbackStyle
  {
    StatusesAreStyled();
    assert Statuses[i] in StatusStyles;
    StatusStylesDistinct();
  }

  /** "#" followed by the id's suffix. */
  function IdLabel(o: Order): (caption: string)
    ensures |caption| == 1 + (if |o.id| < 6 then |o.id| else 6)
    ensures caption[0] == '#' && o.id == o.id[..|o.id| - (|caption| - 1)] + caption[1..]
  {
    "#" + IdSuffix(o.id)
  }
}
