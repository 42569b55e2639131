/**
 * Prices, invoice lines and invoice totals. Money is exact: `real` stands for
 * the tool's floating-point values without their rounding.
 */
module Pricing {
  import opened Catalog

  /** calculate_price: the unit price after a percentage discount off the MRP. */
  function UnitPrice(mrp: real, discount: real): (price: real)
    ensures 0.0 <= mrp && 0.0 <= discount <= 100.0 ==> 0.0 <= price <= mrp
    ensures discount == 0.0 ==> price == mrp
    ensures discount == 100.0 ==> price == 0.0
  {
    mrp * (1.0 - discount / 100.0)
  }

  /** A larger discount never gives a higher price (for a non-negative MRP). */
  lemma UnitPriceAntitone(mrp: real, d1: real, d2: real)
    requires 0.0 <= mrp && d1 <= d2
    ensures UnitPrice(mrp, d2) <= UnitPrice(mrp, d1)
  {
    var step := (d2 - d1) / 100.0;
    assert 0.0 <= step;
    assert 0.0 <= mrp * step;
    assert UnitPrice(mrp, d1) - UnitPrice(mrp, d2) == mrp * step;
  }

  /** The discount is recoverable from the MRP and the price whenever the MRP is not zero. */
  lemma UnitPriceDeterminesDiscount(mrp: real, d1: real, d2: real)
    requires mrp != 0.0 && UnitPrice(mrp, d1) == UnitPrice(mrp, d2)
    ensures d1 == d2
  {
    var step := (d2 - d1) / 100.0;
    assert UnitPrice(mrp, d1) - UnitPrice(mrp, d2) == mrp * step;
    assert step == (mrp * step) / mrp;
  }

  /** One row of an invoice: a product, its pricing and the amounts derived from them. */
  datatype LineItem = LineItem(
    productId: int,
    productName: string,
    mrp: real,
    discount: real,        // percent
    price: real,           // unit price
    quantity: int,
    taxRate: real,
    taxAmount: real,
    amount: real
  )

  /** A line for `quantity` units of catalog product p at the given MRP, discount and price. */
  function MakeLine(p: Product, name: string, mrp: real, discount: real, price: real, quantity: int): (l: LineItem)
    ensures l.amount == l.price * l.quantity as real
    ensures l.taxAmount == l.amount * l.taxRate
    ensures l.productId == p.id && l.taxRate == p.taxRate
  {
    LineItem(p.id, name, mrp, discount, price, quantity, p.taxRate,
             price * quantity as real * p.taxRate, price * quantity as real)
  }

  /** The derived fields agree with the others: price from MRP and discount, amounts from price. */
  predicate IsConsistent(l: LineItem)
  {
    && l.price == UnitPrice(l.mrp, l.discount)
    && l.amount == l.price * l.quantity as real
    && l.taxAmount == l.amount * l.taxRate
  }

  /**
   * The line's product ID and tax rate are those of the first catalog product
   * with the line's name, as the add-product form and both rehydration paths
   * take them.
   */
  predicate MatchesCatalog(l: LineItem, catalog: seq<Product>)
  {
    && Lookup(catalog, l.productName).Some?
    && l.productId == Lookup(catalog, l.productName).value.id
    && l.taxRate == Lookup(catalog, l.productName).value.taxRate
  }

  /** A line the add-product form can produce: discount within 0..100 and at least one unit. */
  predicate IsWellFormed(l: LineItem)
  {
    IsConsistent(l) && 0.0 <= l.discount <= 100.0 && l.quantity >= 1
  }

  /** Bounds every well-formed line keeps when its MRP and tax rate are not negative. */
  lemma LineBounds(l: LineItem)
    requires IsWellFormed(l) && 0.0 <= l.mrp && 0.0 <= l.taxRate
    ensures 0.0 <= l.price <= l.mrp
    ensures 0.0 <= l.amount <= l.mrp * l.quantity as real
    ensures 0.0 <= l.taxAmount
  {
    var q := l.quantity as real;
    assert l.amount <= l.mrp * q by {
      assert l.mrp * q - l.price * q == (l.mrp - l.price) * q;
    }
  }

  // ---------------------------------------------------------------------------
  // Totals

  /**
   * Python's sum(): add left to right, starting from zero. A sum of
   * non-negative terms is not negative, and a sum of zeros is zero.
   */
  function Sum(xs: seq<real>): (s: real)
    ensures xs == [] ==> s == 0.0
    ensures (forall i :: 0 <= i < |xs| ==> 0.0 <= xs[i]) ==> 0.0 <= s
    ensures (forall i :: 0 <= i < |xs| ==> xs[i] == 0.0) ==> s == 0.0
  {
    if xs == [] then 0.0 else Sum(xs[..|xs| - 1]) + xs[|xs| - 1]
  }

  lemma {:induction false} SumConcat(a: seq<real>, b: seq<real>)
    ensures Sum(a + b) == Sum(a) + Sum(b)
    decreases |b|
  {
    if b == [] {
      assert a + b == a;
    } else {
      assert (a + b)[..|a + b| - 1] == a + b[..|b| - 1];
      assert (a + b)[|a + b| - 1] == b[|b| - 1];
      SumConcat(a, b[..|b| - 1]);
    }
  }

  function Amounts(lines: seq<LineItem>): (r: seq<real>)
    ensures |r| == |lines| && forall i :: 0 <= i < |lines| ==> r[i] == lines[i].amount
  {
    seq(|lines|, i requires 0 <= i < |lines| => lines[i].amount)
  }

  function TaxAmounts(lines: seq<LineItem>): (r: seq<real>)
    ensures |r| == |lines| && forall i :: 0 <= i < |lines| ==> r[i] == lines[i].taxAmount
  {
    seq(|lines|, i requires 0 <= i < |lines| => lines[i].taxAmount)
  }

  datatype Totals = Totals(subtotal: real, tax: real, total: real)

  /** Subtotal, tax and total of the lines, as the invoice summary computes them. */
  function InvoiceTotals(lines: seq<LineItem>): (t: Totals)
    ensures t.total == t.subtotal + t.tax
    ensures lines == [] ==> t == Totals(0.0, 0.0, 0.0)
  {
    var subtotal := Sum(Amounts(lines));
    var tax := Sum(TaxAmounts(lines));
    Totals(subtotal, tax, subtotal + tax)
  }

  /** The totals of two carts joined are the sums of their totals. */
  lemma TotalsOfConcat(a: seq<LineItem>, b: seq<LineItem>)
    ensures InvoiceTotals(a + b).subtotal == InvoiceTotals(a).subtotal + InvoiceTotals(b).subtotal
    ensures InvoiceTotals(a + b).tax == InvoiceTotals(a).tax + InvoiceTotals(b).tax
    ensures InvoiceTotals(a + b).total == InvoiceTotals(a).total + InvoiceTotals(b).total
  {
    assert Amounts(a + b) == Amounts(a) + Amounts(b);
    assert TaxAmounts(a + b) == TaxAmounts(a) + TaxAmounts(b);
    SumConcat(Amounts(a), Amounts(b));
    SumConcat(TaxAmounts(a), TaxAmounts(b));
  }

  /** Appending a line adds exactly its amount and tax amount. */
  lemma TotalsAfterAppend(lines: seq<LineItem>, l: LineItem)
    ensures InvoiceTotals(lines + [l]).subtotal == InvoiceTotals(lines).subtotal + l.amount
    ensures InvoiceTotals(lines + [l]).tax == InvoiceTotals(lines).tax + l.taxAmount
    ensures InvoiceTotals(lines + [l]).total == InvoiceTotals(lines).total + l.amount + l.taxAmount
  {
    TotalsOfConcat(lines, [l]);
    assert Amounts([l]) == [l.amount] && TaxAmounts([l]) == [l.taxAmount];
    assert Sum([l.amount]) == Sum([]) + l.amount;
    assert Sum([l.taxAmount]) == Sum([]) + l.taxAmount;
  }

  /** A one-line invoice: the subtotal is the line's amount and the tax its tax amount. */
  lemma OneLineTotals(l: LineItem)
    ensures InvoiceTotals([l]) == Totals(l.amount, l.taxAmount, l.amount + l.taxAmount)
  {
    TotalsAfterAppend([], l);
    assert [] + [l] == [l];
  }

  /** Removing the line at position k subtracts exactly its amount and tax amount. */
  lemma TotalsAfterRemoval(lines: seq<LineItem>, k: nat)
    requires k < |lines|
    ensures InvoiceTotals(lines[..k] + lines[k + 1..]).subtotal == InvoiceTotals(lines).subtotal - lines[k].amount
    ensures InvoiceTotals(lines[..k] + lines[k + 1..]).tax == InvoiceTotals(lines).tax - lines[k].taxAmount
  {
    assert lines == (lines[..k] + [lines[k]]) + lines[k + 1..];
    TotalsOfConcat(lines[..k] + [lines[k]], lines[k + 1..]);
    TotalsAfterAppend(lines[..k], lines[k]);
    TotalsOfConcat(lines[..k], lines[k + 1..]);
  }

  /** With non-negative MRPs and tax rates, no total is negative and tax only adds to the subtotal. */
  lemma TotalsNonNegative(lines: seq<LineItem>)
    requires forall i :: 0 <= i < |lines| ==>
      IsWellFormed(lines[i]) && 0.0 <= lines[i].mrp && 0.0 <= lines[i].taxRate
    ensures 0.0 <= InvoiceTotals(lines).subtotal
    ensures 0.0 <= InvoiceTotals(lines).tax
    ensures InvoiceTotals(lines).subtotal <= InvoiceTotals(lines).total
  {
    forall i | 0 <= i < |lines|
      ensures 0.0 <= lines[i].amount && 0.0 <= lines[i].taxAmount
    {
      LineBounds(lines[i]);
    }
    assert 0.0 <= Sum(Amounts(lines)) && 0.0 <= Sum(TaxAmounts(lines));
  }

  /** Tax-free lines add no tax: the total is the subtotal. */
  lemma TaxFreeTotals(lines: seq<LineItem>)
    requires forall i :: 0 <= i < |lines| ==> IsConsistent(lines[i]) && lines[i].taxRate == 0.0
    ensures InvoiceTotals(lines).tax == 0.0
    ensures InvoiceTotals(lines).total == InvoiceTotals(lines).subtotal
  {
    assert Sum(TaxAmounts(lines)) == 0.0;
  }
}
