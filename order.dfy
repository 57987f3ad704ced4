/** The in-memory order aggregate and its totals. */
module Orders {
  import opened Products
  import opened OrderLines

  /** The tax rate applied to the net amount: 20%. */
  const TaxRate: real := 0.2

  /** Amount of one line: the product's price times the quantity. */
  function LineAmount(line: OrderLine): real
  {
    line.product.price * line.quantity as real
  }

  /** Net amount of a list of lines: the line amounts summed from the first line to the last. */
  function NetAmountOf(lines: seq<OrderLine>): real
  {
    if lines == [] then 0.0
    else NetAmountOf(lines[..|lines| - 1]) + LineAmount(lines[|lines| - 1])
  }

  /** The net amount of a concatenation is the sum of the parts' net amounts. */
  lemma {:induction false} NetAmountOfAppend(a: seq<OrderLine>, b: seq<OrderLine>)
    ensures NetAmountOf(a + b) == NetAmountOf(a) + NetAmountOf(b)
    decreases |b|
  {
    if b != [] {
      var init := b[..|b| - 1];
      assert (a + b)[..|a + b| - 1] == a + init;
      NetAmountOfAppend(a, init);
    } else {
      assert a + b == a;
    }
  }

  /** Taking one line out of a list lowers its net amount by that line's amount. */
  lemma NetAmountOfRemove(b: seq<OrderLine>, k: int)
    requires 0 <= k < |b|
    ensures NetAmountOf(b) == NetAmountOf(b[..k] + b[k + 1..]) + LineAmount(b[k])
  {
    var pre, x, post := b[..k], b[k], b[k + 1..];
    assert b == pre + [x] + post;
    NetAmountOfAppend(pre + [x], post);
    NetAmountOfAppend(pre, [x]);
    NetAmountOfAppend(pre, post);
    assert NetAmountOf([x]) == LineAmount(x) by {
      assert [x][..0] == [];
    }
  }

  /**
   * The net amount depends only on the multiset of lines, not on the order
   * in which they were added.
   */
  lemma {:induction false} NetAmountOfPermutation(a: seq<OrderLine>, b: seq<OrderLine>)
    requires multiset(a) == multiset(b)
    ensures NetAmountOf(a) == NetAmountOf(b)
    decreases |a|
  {
    if a == [] {
      assert |b| == |multiset(b)| == 0;
    } else {
      var x := a[|a| - 1];
      var init := a[..|a| - 1];
      assert a == init + [x];
      assert x in multiset(b);
      var k :| 0 <= k < |b| && b[k] == x;
      var rest := b[..k] + b[k + 1..];
      MultisetRemove(b, k);
      assert multiset(init) == multiset(a) - multiset{x};
      NetAmountOfPermutation(init, rest);
      NetAmountOfRemove(b, k);
    }
  }

  /** The multiset of a list with one element taken out. */
  lemma MultisetRemove<T>(b: seq<T>, k: int)
    requires 0 <= k < |b|
    ensures multiset(b[..k] + b[k + 1..]) == multiset(b) - multiset{b[k]}
  {
    assert b == b[..k] + [b[k]] + b[k + 1..];
  }

  /** With no negative price or quantity, the net amount is not negative either. */
  lemma {:induction false} NetAmountOfNonNegative(lines: seq<OrderLine>)
    requires forall i :: 0 <= i < |lines| ==> lines[i].product.price >= 0.0 && lines[i].quantity >= 0
    ensures NetAmountOf(lines) >= 0.0
    decreases |lines|
  {
    if lines != [] {
      NetAmountOfNonNegative(lines[..|lines| - 1]);
    }
  }

  /**
   * An order for one customer: its lines in the order they were added and
   * the totals computed from them.
   */
  class Order {
    /** Fixed at construction: there is no setter. */
    const customerId: int
    var lines: seq<OrderLine>
    var netAmount: real
    var tax: real
    var totalAmount: real

    /** The totals agree with the lines. */
    ghost predicate Valid()
      reads this
    {
      && netAmount == NetAmountOf(lines)
      && tax == netAmount * TaxRate
      && totalAmount == netAmount + tax
    }

    /** A new, empty order: no lines and all three amounts zero. */
    constructor (customerId: int)
      ensures this.customerId == customerId
      ensures lines == []
      ensures netAmount == 0.0 && tax == 0.0 && totalAmount == 0.0
      ensures Valid()
    {
      this.customerId := customerId;
      lines := [];
      netAmount := 0.0;
      tax := 0.0;
      totalAmount := 0.0;
    }

    /**
     * Appends any line, without validation, and recomputes the totals from
     * scratch.
     */
    method AddLine(line: OrderLine)
      modifies this
      ensures lines == old(lines) + [line]
      ensures Valid()
      ensures netAmount == old(NetAmountOf(lines)) + LineAmount(line)
      ensures totalAmount == netAmount * (1.0 + TaxRate)
    {
      lines := lines + [line];
      assert lines[..|lines| - 1] == old(lines);
      RecalculateTotals();
    }

    /**
     * Resets the net amount to zero, adds every line's amount to it, then
     * derives tax and total from it.
     */
    method RecalculateTotals()
      modifies this`netAmount, this`tax, this`totalAmount
      ensures Valid()
    {
      netAmount := 0.0;
      for i := 0 to |lines|
        invariant netAmount == NetAmountOf(lines[..i])
      {
        assert lines[..i + 1][..i] == lines[..i];
        netAmount := netAmount + LineAmount(lines[i]);
      }
      assert lines[..|lines|] == lines;
      tax := netAmount * TaxRate;
      totalAmount := netAmount + tax;
    }
  }
}
