/**
 * A customer's order history as rows of five display strings: order id,
 * date, product name, quantity, unit price. The rows come from the same
 * join, filter and order as `OrderDetailsQuery`.
 */
module OrderHistoryDAO {
  import opened Wrappers
  import opened Products
  import opened OrderDetails
  import opened Tables
  import opened OrderDetailsQuery

  /** The text shown for an order without a date. */
  const NotAvailable: string := "N/A"

  function DigitChar(d: int): char
    requires 0 <= d < 10
  {
    (d + '0' as int) as char
  }

  /** Decimal digits of a natural number, without leading zeros. */
  function NatText(n: nat): (s: string)
    ensures |s| > 0
    ensures forall i :: 0 <= i < |s| ==> '0' <= s[i] <= '9'
  {
    if n < 10 then [DigitChar(n)] else NatText(n / 10) + [DigitChar(n % 10)]
  }

  /** `String.valueOf(int)`: an optional minus sign, then the decimal digits. */
  function IntText(n: int): string
  {
    if n < 0 then "-" + NatText(-n) else NatText(n)
  }

  /** The value of a string of decimal digits. */
  function ParseNat(s: string): int
  {
    if s == [] then 0 else ParseNat(s[..|s| - 1]) * 10 + (s[|s| - 1] as int - '0' as int)
  }

  /** `Integer.parseInt`, for the strings `IntText` produces. */
  function ParseInt(s: string): int
  {
    if s != [] && s[0] == '-' then -ParseNat(s[1..]) else ParseNat(s)
  }

  lemma {:induction false} NatTextRoundTrip(n: nat)
    ensures ParseNat(NatText(n)) == n
    decreases n
  {
    if n >= 10 {
      var s := NatText(n);
      assert s[..|s| - 1] == NatText(n / 10);
      NatTextRoundTrip(n / 10);
    }
  }

  /** The text of an integer reads back as that integer. */
  lemma IntTextRoundTrip(n: int)
    ensures ParseInt(IntText(n)) == n
  {
    if n < 0 {
      assert IntText(n)[1..] == NatText(-n);
      NatTextRoundTrip(-n);
    } else {
      NatTextRoundTrip(n);
    }
  }

  /**
   * `cells` displays `d`: five cells holding, in order, the order id's text,
   * the formatted date or "N/A" for a NULL date, the product name, the
   * quantity's text and the formatted unit price. The two number cells read
   * back as the numbers they show.
   */
  predicate Displays(cells: seq<string>, d: OrderDetail, dateText: int -> string, priceText: real -> string)
  {
    && |cells| == 5
    && cells[0] == IntText(d.orderId) && ParseInt(cells[0]) == d.orderId
    && cells[1] == (if d.orderDate.None? then NotAvailable else dateText(d.orderDate.value))
    && cells[2] == d.productName
    && cells[3] == IntText(d.quantity) && ParseInt(cells[3]) == d.quantity
    && cells[4] == priceText(d.unitPrice)
  }

  /** Fills a fresh five-cell row from one result row. */
  method FillRow(d: OrderDetail, dateText: int -> string, priceText: real -> string) returns (cells: seq<string>)
    ensures Displays(cells, d, dateText, priceText)
  {
    var row := new string[5];
    row[0] := IntText(d.orderId);
    row[1] := if d.orderDate.Some? then dateText(d.orderDate.value) else NotAvailable;
    row[2] := d.productName;
    row[3] := IntText(d.quantity);
    row[4] := priceText(d.unitPrice);
    IntTextRoundTrip(d.orderId);
    IntTextRoundTrip(d.quantity);
    cells := row[..];
  }

  /**
   * Turns each row of the query's result, in order, into five display
   * cells. Date and price formatting are the caller's `dateText` and
   * `priceText`.
   */
  method GetOrderHistoryByCustomerId(
    orders: seq<Header>, orderLines: seq<LineRow>, products: map<int, Product>, customerId: int,
    dateText: int -> string, priceText: real -> string)
    returns (history: seq<seq<string>>)
    ensures |history| == |OrderDetailsByCustomer(orders, orderLines, products, customerId)|
    ensures forall i :: 0 <= i < |history| ==>
      Displays(history[i], OrderDetailsByCustomer(orders, orderLines, products, customerId)[i], dateText, priceText)
  {
    var rows := OrderDetailsByCustomer(orders, orderLines, products, customerId);
    history := [];
    var k := 0;
    while k < |rows|
      invariant 0 <= k <= |rows|
      invariant |history| == k
      invariant forall i :: 0 <= i < k ==> Displays(history[i], rows[i], dateText, priceText)
    {
      var cells := FillRow(rows[k], dateText, priceText);
      history := history + [cells];
      k := k + 1;
    }
  }
}
