/** Money arithmetic shared by the terminal and the store: line amounts, the
    cart total and profit, the change owed, and loyalty points. */
module Pricing {
  import opened Collections
  import opened Types

  function LineAmount(item: CartItem): int { item.product.price * item.quantity }

  function LineCost(item: CartItem): int { item.product.costPrice * item.quantity }

  function LineProfit(item: CartItem): int { (item.product.price - item.product.costPrice) * item.quantity }

  function LineQuantity(item: CartItem): int { item.quantity }

  /** Sum of price times quantity over the lines. */
  function Total(lines: seq<CartItem>): int { SumOf(lines, LineAmount) }

  /** Sum of cost price times quantity over the lines. */
  function Cost(lines: seq<CartItem>): int { SumOf(lines, LineCost) }

  /** Sum of (price - cost price) times quantity over the lines. */
  function Profit(lines: seq<CartItem>): int { SumOf(lines, LineProfit) }

  /** The profit of a sale is what it takes in minus what its goods cost. */
  lemma {:induction false} ProfitIsTotalMinusCost(lines: seq<CartItem>)
    ensures Profit(lines) == Total(lines) - Cost(lines)
  {
    if lines != [] {
      var item := lines[0];
      assert LineProfit(item) == LineAmount(item) - LineCost(item) by {
        assert (item.product.price - item.product.costPrice) * item.quantity
            == item.product.price * item.quantity - item.product.costPrice * item.quantity;
      }
      ProfitIsTotalMinusCost(lines[1..]);
    }
  }

  /** The total of a cart split in two is the sum of the two totals. */
  lemma TotalOfAppend(a: seq<CartItem>, b: seq<CartItem>)
    ensures Total(a + b) == Total(a) + Total(b)
  {
    SumOfAppend(a, b, LineAmount);
  }

  /** With non-negative prices and quantities the total is non-negative. */
  lemma {:induction false} TotalNonNegative(lines: seq<CartItem>)
    requires forall i :: 0 <= i < |lines| ==> lines[i].product.price >= 0 && lines[i].quantity >= 0
    ensures Total(lines) >= 0
  {
    if lines != [] {
      TotalNonNegative(lines[1..]);
    }
  }

  /** The terminal's running balance: what is handed back once something has
      been tendered; negative while the tender is short. */
  function TerminalChangeDue(given: int, total: int): (r: int)
    ensures given > 0 ==> r == given - total
    ensures given <= 0 ==> r == 0
    ensures r < 0 <==> 0 < given < total
  {
    if given > 0 then given - total else 0
  }

  /** The change recorded on a sale: the excess of the tender over the total,
      and never negative. */
  function RecordedChangeDue(given: int, total: int): (r: int)
    ensures r >= 0 && r >= given - total
    ensures r == 0 || r == given - total
  {
    Max(0, given - total)
  }

  /** When the tender covers the total, the terminal's balance and the
      recorded change agree. */
  lemma ChangeDueAgrees(given: int, total: int)
    requires given > 0 && given >= total
    ensures TerminalChangeDue(given, total) == RecordedChangeDue(given, total) == given - total
  {
  }

  /** `Math.floor(total * 0.01)` for a whole-rupee total. */
  function LoyaltyPoints(total: int): (r: int)
    ensures 100 * r <= total < 100 * r + 100
  {
    total / 100
  }
}
