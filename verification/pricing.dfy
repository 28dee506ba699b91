/** Line prices and order totals, in exact integer cents. */
module Pricing {
  import opened Common
  import opened Tables

  /** The price of `quantity` units at `unitPrice` each. */
  function LineTotal(quantity: int, unitPrice: Cents): Cents {
    quantity * unitPrice
  }

  /** A cart line whose stored price is its quantity times its stored unit price. */
  predicate WellPriced(l: CartLine) {
    l.price == LineTotal(l.quantity, l.unitPrice)
  }

  /** The sum of the stored `price` fields, accumulated in list order. */
  function SumPrices(lines: seq<CartLine>): Cents {
    if lines == [] then 0 else SumPrices(lines[..|lines| - 1]) + lines[|lines| - 1].price
  }

  /** An independent reference total: each line's quantity times unit price, summed. */
  function SumLineTotals(lines: seq<CartLine>): Cents {
    if lines == [] then 0 else LineTotal(lines[0].quantity, lines[0].unitPrice) + SumLineTotals(lines[1..])
  }

  /** The total of two consecutive runs of lines is the sum of their totals. */
  lemma {:induction false} SumPricesAppend(a: seq<CartLine>, b: seq<CartLine>)
    ensures SumPrices(a + b) == SumPrices(a) + SumPrices(b)
  {
    if b == [] {
      assert a + b == a;
    } else {
      SumPricesAppend(a, b[..|b| - 1]);
      assert (a + b)[..|a + b| - 1] == a + b[..|b| - 1];
    }
  }

  /** When every line's stored price is its quantity times its unit price, the sum of
      stored prices equals the sum recomputed from quantities and unit prices. */
  lemma {:induction false} StoredPricesMatchLineTotals(lines: seq<CartLine>)
    requires forall l :: l in lines ==> WellPriced(l)
    ensures SumPrices(lines) == SumLineTotals(lines)
  {
    if lines != [] {
      StoredPricesMatchLineTotals(lines[1..]);
      SumPricesAppend([lines[0]], lines[1..]);
      assert [lines[0]] + lines[1..] == lines;
      assert [lines[0]][..0] == [];
      assert SumPrices([lines[0]]) == SumPrices([]) + lines[0].price;
      assert lines[0] in lines;
      assert SumLineTotals(lines) == LineTotal(lines[0].quantity, lines[0].unitPrice) + SumLineTotals(lines[1..]);
    }
  }

  /** `OrdersView.calculate_total`: start from zero and add each line's stored price. */
  method CalculateTotal(lines: seq<CartLine>) returns (total: Cents)
    ensures total == SumPrices(lines)
    ensures lines == [] ==> total == 0
  {
    total := 0;
    for i := 0 to |lines|
      invariant total == SumPrices(lines[..i])
    {
      assert lines[..i + 1][..i] == lines[..i];
      total := total + lines[i].price;
    }
    assert lines[..|lines|] == lines;
  }
}
