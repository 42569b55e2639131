/**
 * Rebuilding invoice lines from a stored record so that a past invoice's PDF
 * can be generated again. Records of the current shape keep each line's MRP,
 * discount and price; older records only name products and quantities, so
 * their prices are recomputed from the catalog as it is now.
 */
module Rehydration {
  import opened Outcomes
  import opened Catalog
  import opened Pricing
  import opened Records

  /** The number of (product, quantity) pairs `zip` yields: it stops at the shorter list. */
  function PairCount(record: InvoiceRecord): (n: nat)
    ensures n <= |record.products| && n <= |record.quantities|
    ensures n == |record.products| || n == |record.quantities|
  {
    Min(|record.products|, |record.quantities|)
  }

  /**
   * The line rebuilt from the i-th pair. The product is looked up by name in
   * the current catalog (a missing name fails); a new-schema record supplies
   * MRP, discount and price from its own lists (a list too short for i
   * fails), an old-schema record takes the catalog's MRP and default discount.
   */
  function LineAt(record: InvoiceRecord, catalog: seq<Product>, i: nat): (r: Result<LineItem>)
    requires i < PairCount(record)
    ensures r.Success? <==>
      && Lookup(catalog, record.products[i]).Some?
      && (record.schema.NewSchema? ==>
            i < |record.schema.mrps| && i < |record.schema.discounts| && i < |record.schema.prices|)
    ensures Lookup(catalog, record.products[i]).None? ==> r == Failure(ProductNotFound(record.products[i]))
    ensures Lookup(catalog, record.products[i]).Some? && r.Failure? ==> r == Failure(IndexError(i))
    ensures r.Success? ==>
      && r.value.productName == record.products[i]
      && r.value.quantity == record.quantities[i]
      && MatchesCatalog(r.value, catalog)
    ensures r.Success? && record.schema.OldSchema? ==> IsConsistent(r.value)
  {
    var name := record.products[i];
    var quantity := record.quantities[i];
    match Lookup(catalog, name)
    case None => Failure(ProductNotFound(name))
    case Some(p) =>
      match record.schema
      case NewSchema(mrps, discounts, prices) =>
        if i < |mrps| && i < |discounts| && i < |prices| then
          Success(MakeLine(p, name, mrps[i], discounts[i], prices[i], quantity))
        else
          Failure(IndexError(i))
      case OldSchema =>
        var price := UnitPrice(p.mrp, p.defaultDiscount);
        Success(MakeLine(p, name, p.mrp, p.defaultDiscount, price, quantity))
  }

  /** The first k lines rebuilt in order; the first line that fails decides the error. */
  function RehydratedPrefix(record: InvoiceRecord, catalog: seq<Product>, k: nat): (r: Result<seq<LineItem>>)
    requires k <= PairCount(record)
    ensures r.Success? <==> forall i :: 0 <= i < k ==> LineAt(record, catalog, i).Success?
    ensures r.Success? ==> |r.value| == k
    ensures r.Success? ==> forall i :: 0 <= i < k ==> LineAt(record, catalog, i) == Success(r.value[i])
    ensures r.Failure? ==> exists i :: 0 <= i < k && LineAt(record, catalog, i) == Failure(r.error)
                               && (forall j :: 0 <= j < i ==> LineAt(record, catalog, j).Success?)
  {
    if k == 0 then Success([])
    else
      match RehydratedPrefix(record, catalog, k - 1)
      case Failure(e) => Failure(e)
      case Success(lines) =>
        match LineAt(record, catalog, k - 1)
        case Failure(e) => Failure(e)
        case Success(line) => Success(lines + [line])
  }

  /** The lines rebuilt from a stored record, or the error that stops the rebuild. */
  function Rehydrated(record: InvoiceRecord, catalog: seq<Product>): (r: Result<seq<LineItem>>)
    ensures r.Success? ==> |r.value| == PairCount(record)
    ensures r.Success? ==> forall i :: 0 <= i < |r.value| ==>
      && r.value[i].productName == record.products[i]
      && r.value[i].quantity == record.quantities[i]
      && MatchesCatalog(r.value[i], catalog)
  {
    RehydratedPrefix(record, catalog, PairCount(record))
  }

  lemma {:induction false} FailureIsFinal(record: InvoiceRecord, catalog: seq<Product>, k: nat, n: nat)
    requires k <= n <= PairCount(record)
    requires RehydratedPrefix(record, catalog, k).Failure?
    ensures RehydratedPrefix(record, catalog, n) == RehydratedPrefix(record, catalog, k)
    decreases n - k
  {
    if k < n {
      FailureIsFinal(record, catalog, k, n - 1);
    }
  }

  /** A line that rebuilds extends a prefix that rebuilt. */
  lemma PrefixGrows(record: InvoiceRecord, catalog: seq<Product>, k: nat, lines: seq<LineItem>, line: LineItem)
    requires k < PairCount(record)
    requires RehydratedPrefix(record, catalog, k) == Success(lines)
    requires LineAt(record, catalog, k) == Success(line)
    ensures RehydratedPrefix(record, catalog, k + 1) == Success(lines + [line])
  {
  }

  /** The first line that fails, after a prefix that rebuilt, decides the whole result. */
  lemma {:induction false} FirstFailureDecides(record: InvoiceRecord, catalog: seq<Product>, k: nat, e: Error)
    requires k < PairCount(record)
    requires RehydratedPrefix(record, catalog, k).Success?
    requires LineAt(record, catalog, k) == Failure(e)
    ensures Rehydrated(record, catalog) == Failure(e)
  {
    assert RehydratedPrefix(record, catalog, k + 1) == Failure(e);
    FailureIsFinal(record, catalog, k + 1, PairCount(record));
  }

  /**
   * The two loops of the "Generate PDF" action, one per record shape, each
   * growing the line list one pair at a time.
   */
  method Rehydrate(record: InvoiceRecord, catalog: seq<Product>) returns (r: Result<seq<LineItem>>)
    ensures r == Rehydrated(record, catalog)
  {
    var n := Min(|record.products|, |record.quantities|);
    var lines: seq<LineItem> := [];
    var i := 0;
    if record.schema.NewSchema? {
      var mrps, discounts, prices := record.schema.mrps, record.schema.discounts, record.schema.prices;
      while i < n
        invariant 0 <= i <= n
        invariant RehydratedPrefix(record, catalog, i) == Success(lines)
      {
        var name, quantity := record.products[i], record.quantities[i];
        var found := Lookup(catalog, name);
        if found.None? {
          FirstFailureDecides(record, catalog, i, ProductNotFound(name));
          return Failure(ProductNotFound(name));
        }
        if i >= |mrps| || i >= |discounts| || i >= |prices| {
          FirstFailureDecides(record, catalog, i, IndexError(i));
          return Failure(IndexError(i));
        }
        var line := MakeLine(found.value, name, mrps[i], discounts[i], prices[i], quantity);
        PrefixGrows(record, catalog, i, lines, line);
        lines := lines + [line];
        i := i + 1;
      }
    } else {
      while i < n
        invariant 0 <= i <= n
        invariant RehydratedPrefix(record, catalog, i) == Success(lines)
      {
        var name, quantity := record.products[i], record.quantities[i];
        var found := Lookup(catalog, name);
        if found.None? {
          FirstFailureDecides(record, catalog, i, ProductNotFound(name));
          return Failure(ProductNotFound(name));
        }
        var p := found.value;
        var price := UnitPrice(p.mrp, p.defaultDiscount);
        var line := MakeLine(p, name, p.mrp, p.defaultDiscount, price, quantity);
        PrefixGrows(record, catalog, i, lines, line);
        lines := lines + [line];
        i := i + 1;
      }
    }
    return Success(lines);
  }

  // ---------------------------------------------------------------------------
  // What rehydration yields

  /**
   * Rebuilding succeeds exactly when every paired product is in the catalog
   * and, for a new-schema record, every paired position has an MRP, a discount
   * and a price; it then yields one line per pair, in order.
   */
  lemma RehydrationSucceeds(record: InvoiceRecord, catalog: seq<Product>)
    ensures Rehydrated(record, catalog).Success? <==>
      forall i :: 0 <= i < PairCount(record) ==>
        && Lookup(catalog, record.products[i]).Some?
        && (record.schema.NewSchema? ==>
              i < |record.schema.mrps| && i < |record.schema.discounts| && i < |record.schema.prices|)
    ensures Rehydrated(record, catalog).Success? ==>
      |Rehydrated(record, catalog).value| == Min(|record.products|, |record.quantities|)
  {
    forall i | 0 <= i < PairCount(record)
      ensures LineAt(record, catalog, i).Success? <==>
        && Lookup(catalog, record.products[i]).Some?
        && (record.schema.NewSchema? ==>
              i < |record.schema.mrps| && i < |record.schema.discounts| && i < |record.schema.prices|)
    {
    }
  }

  /** A product missing from the catalog stops the rebuild with that product's name, unless an earlier pair failed. */
  lemma MissingProductFails(record: InvoiceRecord, catalog: seq<Product>, k: nat)
    requires k < PairCount(record) && Lookup(catalog, record.products[k]).None?
    requires forall j :: 0 <= j < k ==> LineAt(record, catalog, j).Success?
    ensures Rehydrated(record, catalog) == Failure(ProductNotFound(record.products[k]))
  {
    var n := PairCount(record);
    var r := Rehydrated(record, catalog);
    assert LineAt(record, catalog, k).Failure?;
    var i :| 0 <= i < n && LineAt(record, catalog, i) == Failure(r.error)
      && forall j :: 0 <= j < i ==> LineAt(record, catalog, j).Success?;
    assert i == k;
  }

  /**
   * A new-schema record gives back each line's stored MRP, discount, price
   * and quantity; only the product ID and tax rate come from the current
   * catalog, and the amounts are recomputed from the stored price.
   */
  lemma NewSchemaLines(record: InvoiceRecord, catalog: seq<Product>, i: nat)
    requires record.schema.NewSchema? && Rehydrated(record, catalog).Success?
    requires i < PairCount(record)
    ensures var l := Rehydrated(record, catalog).value[i];
      var p := Lookup(catalog, record.products[i]).value;
      && l.productName == record.products[i]
      && l.quantity == record.quantities[i]
      && l.mrp == record.schema.mrps[i]
      && l.discount == record.schema.discounts[i]
      && l.price == record.schema.prices[i]
      && l.productId == p.id && l.taxRate == p.taxRate
      && l.amount == l.price * l.quantity as real
      && l.taxAmount == l.amount * l.taxRate
  {
    assert LineAt(record, catalog, i).Success?;
  }

  /**
   * An old-schema record is priced from the catalog as it is now: each
   * line's MRP and discount are the product's current MRP and default
   * discount, whatever was charged when the invoice was made.
   */
  lemma OldSchemaLines(record: InvoiceRecord, catalog: seq<Product>, i: nat)
    requires record.schema.OldSchema? && Rehydrated(record, catalog).Success?
    requires i < PairCount(record)
    ensures var l := Rehydrated(record, catalog).value[i];
      var p := Lookup(catalog, record.products[i]).value;
      && l.productName == record.products[i]
      && l.quantity == record.quantities[i]
      && l.mrp == p.mrp && l.discount == p.defaultDiscount
      && l.productId == p.id && l.taxRate == p.taxRate
      && IsConsistent(l)
  {
    assert LineAt(record, catalog, i).Success?;
  }

  /**
   * A new-schema record whose parallel lists are exactly those of the given
   * catalog-priced lines rebuilds to those lines.
   */
  lemma RebuildsParallelLines(record: InvoiceRecord, lines: seq<LineItem>, catalog: seq<Product>)
    requires forall i :: 0 <= i < |lines| ==> MatchesCatalog(lines[i], catalog) && IsConsistent(lines[i])
    requires record.schema.NewSchema?
    requires |record.products| == |record.quantities| == |record.schema.mrps| == |lines|
    requires |record.schema.discounts| == |record.schema.prices| == |lines|
    requires forall i :: 0 <= i < |lines| ==>
      && record.products[i] == lines[i].productName
      && record.quantities[i] == lines[i].quantity
      && record.schema.mrps[i] == lines[i].mrp
      && record.schema.discounts[i] == lines[i].discount
      && record.schema.prices[i] == lines[i].price
    ensures Rehydrated(record, catalog) == Success(lines)
  {
    assert PairCount(record) == |lines|;
    forall i | 0 <= i < |lines|
      ensures LineAt(record, catalog, i) == Success(lines[i])
    {
      var l := lines[i];
      var p := Lookup(catalog, l.productName).value;
      assert MakeLine(p, l.productName, l.mrp, l.discount, l.price, l.quantity) == l;
    }
    var r := Rehydrated(record, catalog);
    assert r.Success?;
    assert r.value == lines;
  }

  /**
   * The round trip: a cart built from the catalog, flattened into a record
   * and rebuilt against the same catalog, comes back line for line.
   */
  lemma RoundTrip(lines: seq<LineItem>, catalog: seq<Product>, customer: Customer, invoiceId: string, date: string)
    requires forall i :: 0 <= i < |lines| ==> MatchesCatalog(lines[i], catalog) && IsConsistent(lines[i])
    ensures Rehydrated(BuildRecord(lines, customer, invoiceId, date), catalog) == Success(lines)
  {
    RebuildsParallelLines(BuildRecord(lines, customer, invoiceId, date), lines, catalog);
  }

  /** After the round trip, the stored totals are the totals of the rebuilt lines. */
  lemma RoundTripTotals(lines: seq<LineItem>, catalog: seq<Product>, customer: Customer, invoiceId: string, date: string)
    requires forall i :: 0 <= i < |lines| ==> MatchesCatalog(lines[i], catalog) && IsConsistent(lines[i])
    ensures var record := BuildRecord(lines, customer, invoiceId, date);
      var rebuilt := Rehydrated(record, catalog);
      && rebuilt.Success?
      && InvoiceTotals(rebuilt.value) == Totals(record.subtotal, record.tax, record.total)
  {
    RoundTrip(lines, catalog, customer, invoiceId, date);
  }

  /** A one-pair old-schema record rebuilds to the line the catalog prices now. */
  lemma OldSinglePair(record: InvoiceRecord, catalog: seq<Product>, p: Product)
    requires record.schema.OldSchema? && |record.products| == 1 && |record.quantities| == 1
    requires Lookup(catalog, record.products[0]) == Some(p)
    ensures Rehydrated(record, catalog) == Success([MakeLine(p, record.products[0], p.mrp, p.defaultDiscount,
      UnitPrice(p.mrp, p.defaultDiscount), record.quantities[0])])
  {
    var line := MakeLine(p, record.products[0], p.mrp, p.defaultDiscount, UnitPrice(p.mrp, p.defaultDiscount), record.quantities[0]);
    assert LineAt(record, catalog, 0) == Success(line);
    PrefixGrows(record, catalog, 0, [], line);
    assert [] + [line] == [line];
  }

  /** An old-schema record for three Handwash 5L, as it rebuilds against the seed catalog: 250 each, 750 in all. */
  lemma OldHandwashRecord(record: InvoiceRecord)
    requires record.schema.OldSchema?
    requires record.products == ["Handwash 5L"] && record.quantities == [3]
    ensures Rehydrated(record, SeedCatalog)
      == Success([LineItem(2, "Handwash 5L", 500.0, 50.0, 250.0, 3, 0.0, 0.0, 750.0)])
  {
    SeedHandwash();
    OldSinglePair(record, SeedCatalog, Product(2, "Handwash 5L", 0.0, 500.0, 50.0));
  }

  /**
   * The same old-schema record after the catalog's default discount for
   * Handwash 5L has dropped to 40%: the rebuilt line is priced at 300, so a
   * record whose stored subtotal is 750 is shown with item rows that add up
   * to 900.
   */
  lemma OldRecordFollowsCatalogChange(record: InvoiceRecord, catalog: seq<Product>)
    requires record.schema.OldSchema?
    requires record.products == ["Handwash 5L"] && record.quantities == [3] && record.subtotal == 750.0
    requires catalog == [Product(2, "Handwash 5L", 0.0, 500.0, 40.0)]
    ensures Rehydrated(record, catalog).Success?
    ensures Rehydrated(record, catalog).value[0].price == 300.0
    ensures InvoiceTotals(Rehydrated(record, catalog).value).subtotal == 900.0
    ensures InvoiceTotals(Rehydrated(record, catalog).value).subtotal - record.subtotal == 150.0
  {
    var p := Product(2, "Handwash 5L", 0.0, 500.0, 40.0);
    assert catalog[0] == p && record.products[0] == p.name && record.quantities[0] == 3;
    LookupAt(catalog, 0);
    OldSinglePair(record, catalog, p);
    HandwashAtForty();
  }

  /** Three Handwash 5L at 40% off an MRP of 500: 300 each, 900 in all, no tax. */
  lemma HandwashAtForty()
    ensures var line := LineItem(2, "Handwash 5L", 500.0, 40.0, 300.0, 3, 0.0, 0.0, 900.0);
      && MakeLine(Product(2, "Handwash 5L", 0.0, 500.0, 40.0), "Handwash 5L", 500.0, 40.0, UnitPrice(500.0, 40.0), 3) == line
      && InvoiceTotals([line]).subtotal == 900.0
  {
    var line := LineItem(2, "Handwash 5L", 500.0, 40.0, 300.0, 3, 0.0, 0.0, 900.0);
    assert UnitPrice(500.0, 40.0) == 300.0;
    TotalsAfterAppend([], line);
    assert [] + [line] == [line];
  }
}
