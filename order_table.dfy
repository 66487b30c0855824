/**
 * The aggregate columns of the dashboard's order table: the total quantity
 * of an order's lines and their total price, each a left fold from 0 over
 * the lines as the page computes it. The price is formatted by
 * `toIDRFormat`, the parameter `fmt` here.
 */
module OrderTable {

  datatype ProductSummary = ProductSummary(id: string, name: string, price: int)
  /** One line of an order as the dashboard receives it. */
  datatype ProductOrder = ProductOrder(id: int, quantity: int, product: ProductSummary)
  /** The fields of an order row that the aggregate columns can see. */
  datatype OrderRow = OrderRow(id: string, total: int, products: seq<ProductOrder>)

  /** `items.reduce((acc, item) => acc + item.quantity, acc)` */
  function FoldQuantity(acc: int, items: seq<ProductOrder>): int
    decreases |items|
  {
    if |items| == 0 then acc else FoldQuantity(acc + items[0].quantity, items[1..])
  }

  /** `items.reduce((acc, item) => acc + item.quantity * item.product.price, acc)` */
  function FoldPrice(acc: int, items: seq<ProductOrder>): int
    decreases |items|
  {
    if |items| == 0 then acc
    else FoldPrice(acc + items[0].quantity * items[0].product.price, items[1..])
  }

  /** `getTotalQuantity` */
  function TotalQuantity(items: seq<ProductOrder>): int {
    FoldQuantity(0, items)
  }

  /** The number `getTotalPrice` formats. */
  function RawTotalPrice(items: seq<ProductOrder>): int {
    FoldPrice(0, items)
  }

  /** `getTotalPrice` */
  function TotalPriceText(fmt: int -> string, items: seq<ProductOrder>): string {
    fmt(RawTotalPrice(items))
  }

  /** The reference sums, taken from the last line backwards. */
  function SumQuantity(items: seq<ProductOrder>): int
    decreases |items|
  {
    if |items| == 0 then 0 else SumQuantity(items[..|items| - 1]) + items[|items| - 1].quantity
  }

  function LineTotal(item: ProductOrder): int {
    item.quantity * item.product.price
  }

  function SumPrice(items: seq<ProductOrder>): int
    decreases |items|
  {
    if |items| == 0 then 0 else SumPrice(items[..|items| - 1]) + LineTotal(items[|items| - 1])
  }

  lemma {:induction false} SumQuantityConcat(a: seq<ProductOrder>, b: seq<ProductOrder>)
    ensures SumQuantity(a + b) == SumQuantity(a) + SumQuantity(b)
    decreases |b|
  {
    if |b| == 0 {
      assert a + b == a;
    } else {
      assert (a + b)[..|a + b| - 1] == a + b[..|b| - 1];
      SumQuantityConcat(a, b[..|b| - 1]);
    }
  }

  lemma {:induction false} SumPriceConcat(a: seq<ProductOrder>, b: seq<ProductOrder>)
    ensures SumPrice(a + b) == SumPrice(a) + SumPrice(b)
    decreases |b|
  {
    if |b| == 0 {
      assert a + b == a;
    } else {
      assert (a + b)[..|a + b| - 1] == a + b[..|b| - 1];
      SumPriceConcat(a, b[..|b| - 1]);
    }
  }

  /** The fold adds the sum of the lines to its seed. */
  lemma {:induction false} FoldQuantityIsSum(acc: int, items: seq<ProductOrder>)
    ensures FoldQuantity(acc, items) == acc + SumQuantity(items)
    decreases |items|
  {
    if |items| > 0 {
      FoldQuantityIsSum(acc + items[0].quantity, items[1..]);
      assert items == [items[0]] + items[1..];
      SumQuantityConcat([items[0]], items[1..]);
      assert [items[0]][..0] == [];
    }
  }

  lemma {:induction false} FoldPriceIsSum(acc: int, items: seq<ProductOrder>)
    ensures FoldPrice(acc, items) == acc + SumPrice(items)
    decreases |items|
  {
    if |items| > 0 {
      FoldPriceIsSum(acc + LineTotal(items[0]), items[1..]);
      assert items == [items[0]] + items[1..];
      SumPriceConcat([items[0]], items[1..]);
      assert [items[0]][..0] == [];
    }
  }

  /** The total quantity is the sum of the quantities; 0 for no lines. */
  lemma TotalQuantityIsSum(items: seq<ProductOrder>)
    ensures TotalQuantity(items) == SumQuantity(items)
    ensures items == [] ==> TotalQuantity(items) == 0
  {
    FoldQuantityIsSum(0, items);
  }

  /** The raw total price is the sum of quantity times price; 0 for no
      lines. */
  lemma RawTotalPriceIsSum(items: seq<ProductOrder>)
    ensures RawTotalPrice(items) == SumPrice(items)
    ensures items == [] ==> RawTotalPrice(items) == 0
  {
    FoldPriceIsSum(0, items);
  }

  /** Both columns add up over concatenated line lists. */
  lemma TotalsAdditive(a: seq<ProductOrder>, b: seq<ProductOrder>)
    ensures TotalQuantity(a + b) == TotalQuantity(a) + TotalQuantity(b)
    ensures RawTotalPrice(a + b) == RawTotalPrice(a) + RawTotalPrice(b)
  {
    TotalQuantityIsSum(a);
    TotalQuantityIsSum(b);
    TotalQuantityIsSum(a + b);
    SumQuantityConcat(a, b);
    RawTotalPriceIsSum(a);
    RawTotalPriceIsSum(b);
    RawTotalPriceIsSum(a + b);
    SumPriceConcat(a, b);
  }

  lemma {:induction false} SumsNonNegative(items: seq<ProductOrder>)
    requires forall i :: 0 <= i < |items| ==> items[i].quantity >= 0 && items[i].product.price >= 0
    ensures SumQuantity(items) >= 0 && SumPrice(items) >= 0
    decreases |items|
  {
    if |items| > 0 {
      SumsNonNegative(items[..|items| - 1]);
      var last := items[|items| - 1];
      assert LineTotal(last) >= 0 by {
        assert last.quantity >= 0 && last.product.price >= 0;
      }
    }
  }

  /** With no negative quantity or price, neither column is negative. */
  lemma TotalsNonNegative(items: seq<ProductOrder>)
    requires forall i :: 0 <= i < |items| ==> items[i].quantity >= 0 && items[i].product.price >= 0
    ensures TotalQuantity(items) >= 0 && RawTotalPrice(items) >= 0
  {
    SumsNonNegative(items);
    TotalQuantityIsSum(items);
    RawTotalPriceIsSum(items);
  }

  /** The price column is recomputed from the lines' current product
      prices, not taken from the order's stored total: a row with one line
      of 2 at 500 shows 1000 whatever its total is. */
  lemma PriceColumnIgnoresTotal(total: int)
    ensures RawTotalPrice(OrderRow("o", total, [ProductOrder(1, 2, ProductSummary("p", "P", 500))]).products) == 1000
  {
    var items := [ProductOrder(1, 2, ProductSummary("p", "P", 500))];
    assert items[1..] == [];
  }
}
