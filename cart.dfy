/**
 * The cart of the invoice being built: an ordered list of lines held in the
 * session, grown by the add-product form, shrunk by a line's remove button
 * and emptied once an invoice has been saved.
 */
module Cart {
  import opened Outcomes
  import opened Catalog
  import opened Pricing

  /**
   * Python's list.pop(i): the list without the element at i, and that element.
   * A negative i counts from the end; any other index raises IndexError.
   */
  function PopAt<T>(s: seq<T>, i: int): (r: Result<(seq<T>, T)>)
    ensures r.Success? <==> -|s| <= i < |s|
    ensures r.Failure? ==> r.error == IndexError(i)
    ensures r.Success? ==>
      var k := if i < 0 then i + |s| else i;
      var (rest, popped) := r.value;
      && popped == s[k]
      && |rest| == |s| - 1
      && (forall j :: 0 <= j < k ==> rest[j] == s[j])
      && (forall j :: k <= j < |rest| ==> rest[j] == s[j + 1])
      && multiset(rest) + multiset{popped} == multiset(s)
  {
    if -|s| <= i < |s| then
      var k := if i < 0 then i + |s| else i;
      assert s == s[..k] + [s[k]] + s[k + 1..];
      Success((s[..k] + s[k + 1..], s[k]))
    else
      Failure(IndexError(i))
  }

  /** Popping a line takes exactly that line's amount and tax amount off the totals. */
  lemma TotalsAfterPop(lines: seq<LineItem>, i: int)
    requires PopAt(lines, i).Success?
    ensures var (rest, popped) := PopAt(lines, i).value;
      && InvoiceTotals(rest).subtotal == InvoiceTotals(lines).subtotal - popped.amount
      && InvoiceTotals(rest).tax == InvoiceTotals(lines).tax - popped.taxAmount
  {
    var k := if i < 0 then i + |lines| else i;
    TotalsAfterRemoval(lines, k);
  }

  lemma PopExamples<T>(x: T)
    ensures PopAt([x], 0) == Success(([], x))
    ensures PopAt<T>([], 0) == Failure(IndexError(0))
  {
  }

  /** The line the add-product form appends for catalog product p. */
  function AddedLine(p: Product, name: string, discount: real, quantity: int): (l: LineItem)
    requires 0.0 <= discount <= 100.0 && quantity >= 1
    ensures IsWellFormed(l)
    ensures l.productName == name && l.mrp == p.mrp && l.discount == discount && l.quantity == quantity
    ensures l.productId == p.id && l.taxRate == p.taxRate
    ensures 0.0 <= p.mrp ==> 0.0 <= l.price <= p.mrp
  {
    MakeLine(p, name, p.mrp, discount, UnitPrice(p.mrp, discount), quantity)
  }

  class Cart {
    /** The catalog the session loaded; every line is priced from it. */
    const catalog: seq<Product>
    /** The lines in the order they were added. */
    var lines: seq<LineItem>

    ghost predicate Valid()
      reads this
    {
      forall i :: 0 <= i < |lines| ==> IsWellFormed(lines[i]) && MatchesCatalog(lines[i], catalog)
    }

    constructor (catalog: seq<Product>)
      ensures Valid()
      ensures this.catalog == catalog && lines == []
    {
      this.catalog := catalog;
      lines := [];
    }

    /**
     * Add `quantity` units of the product named `name` at `discount` percent.
     * The form's inputs keep the discount within 0..100 and the quantity at
     * least 1. Appends exactly one line, with no merging of repeated products.
     */
    method Add(name: string, discount: real, quantity: int) returns (outcome: Outcome)
      requires Valid()
      requires 0.0 <= discount <= 100.0 && quantity >= 1
      modifies this
      ensures Valid()
      ensures Lookup(catalog, name).None? ==>
        outcome == Fail(ProductNotFound(name)) && lines == old(lines)
      ensures Lookup(catalog, name).Some? ==>
        outcome == Pass && lines == old(lines) + [AddedLine(Lookup(catalog, name).value, name, discount, quantity)]
    {
      match Lookup(catalog, name)
      case None =>
        outcome := Fail(ProductNotFound(name));
      case Some(p) =>
        var line := AddedLine(p, name, discount, quantity);
        lines := lines + [line];
        outcome := Pass;
    }

    /** Remove the line at position i, as its remove button does with list.pop(i). */
    method Remove(i: int) returns (outcome: Outcome)
      requires Valid()
      modifies this
      ensures Valid()
      ensures PopAt(old(lines), i).Failure? ==> outcome == Fail(IndexError(i)) && lines == old(lines)
      ensures PopAt(old(lines), i).Success? ==> outcome == Pass && lines == PopAt(old(lines), i).value.0
    {
      match PopAt(lines, i)
      case Failure(e) =>
        outcome := Fail(e);
      case Success((rest, _)) =>
        lines := rest;
        outcome := Pass;
    }

    /** Empty the cart once its invoice has been saved. */
    method Clear()
      requires Valid()
      modifies this
      ensures Valid()
      ensures lines == []
    {
      lines := [];
    }
  }

  /** A client of the cart: add one line, remove it, then fail to remove from the empty cart. */
  method CartScenario()
  {
    var toiletCleaner := Product(1, "Toilet Cleaner 5L", 0.0, 500.0, 10.0);
    var cart := new Cart([toiletCleaner]);
    LookupAt([toiletCleaner], 0);
    var added := cart.Add("Toilet Cleaner 5L", 10.0, 2);
    assert added == Pass && |cart.lines| == 1;
    assert cart.lines[0].price == 450.0 && cart.lines[0].amount == 900.0;
    var removed := cart.Remove(0);
    assert removed == Pass && cart.lines == [];
    removed := cart.Remove(0);
    assert removed == Fail(IndexError(0));
  }
}
