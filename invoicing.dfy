/**
 * The two user actions that tie the pieces together: "Generate Invoice",
 * which turns the cart into a saved record and a document, and "Generate
 * PDF" on a previous invoice, which finds the record by ID, rebuilds its
 * lines from the catalog and makes the document again.
 */
module Invoicing {
  import opened Outcomes
  import opened Calendar
  import opened Catalog
  import opened Pricing
  import opened Cart
  import opened Records
  import opened Rehydration
  import opened Document

  const MissingCustomerName: string := "Please enter customer name"

  /**
   * "Generate Invoice". The button is only offered while the cart has lines.
   * An empty customer name is refused and nothing changes. Otherwise the
   * record is built with an ID from the clock reading `idClock` and the
   * random text `uuid`, dated from a second clock reading `now`, and
   * appended to the store; then the document is made, and only once it
   * exists is the cart emptied. A due date that cannot be computed fails
   * after the record was saved, leaving the cart as it was.
   */
  method GenerateInvoice(cart: Cart, store: InvoiceStore, customer: Customer, idClock: DateTime, uuid: string, now: DateTime)
    returns (r: Result<InvoiceDocument>)
    requires cart.Valid() && cart.lines != []
    requires IsValidDateTime(idClock) && IsValidDateTime(now)
    modifies cart, store
    ensures cart.Valid()
    ensures customer.name == "" ==>
      && r == Failure(ValidationError(MissingCustomerName))
      && cart.lines == old(cart.lines) && store.records == old(store.records)
    ensures customer.name != "" ==>
      var record := BuildRecord(old(cart.lines), customer, InvoiceId(idClock, uuid), FormatDateTime(now));
      && store.records == old(store.records) + [record]
      && r == CreateDocument(record, old(cart.lines))
      && (r.Success? ==> cart.lines == [])
      && (r.Failure? ==> cart.lines == old(cart.lines))
  {
    if customer.name == "" {
      return Failure(ValidationError(MissingCustomerName));
    }
    var invoiceId := InvoiceId(idClock, uuid);
    var record := BuildRecord(cart.lines, customer, invoiceId, FormatDateTime(now));
    var saved := store.Save(record);
    r := CreateDocument(record, cart.lines);
    if saved && r.Success? {
      cart.Clear();
    }
  }

  /**
   * "Generate PDF" for a previous invoice: the first record with the ID
   * (`.iloc[0]` raises IndexError when there is none), its lines rebuilt
   * against the current catalog, and the document for that record.
   */
  function RegeneratedDocument(records: seq<InvoiceRecord>, invoiceId: string, catalog: seq<Product>): (r: Result<InvoiceDocument>)
    ensures FindInvoice(records, invoiceId).None? ==> r == Failure(IndexError(0))
    ensures FindInvoice(records, invoiceId).Some? ==>
      var record := records[FindInvoice(records, invoiceId).value];
      && (Rehydrated(record, catalog).Failure? ==> r == Failure(Rehydrated(record, catalog).error))
      && (Rehydrated(record, catalog).Success? ==> r == CreateDocument(record, Rehydrated(record, catalog).value))
  {
    match FindInvoice(records, invoiceId)
    case None => Failure(IndexError(0))
    case Some(k) =>
      match Rehydrated(records[k], catalog)
      case Failure(e) => Failure(e)
      case Success(lines) => CreateDocument(records[k], lines)
  }

  /** The action as the page runs it, with the rehydration loops. */
  method Regenerate(store: InvoiceStore, invoiceId: string, catalog: seq<Product>) returns (r: Result<InvoiceDocument>)
    ensures r == RegeneratedDocument(store.records, invoiceId, catalog)
  {
    var found := FindInvoice(store.records, invoiceId);
    if found.None? {
      return Failure(IndexError(0));
    }
    var record := store.records[found.value];
    var lines := Rehydrate(record, catalog);
    if lines.Failure? {
      return Failure(lines.error);
    }
    r := CreateDocument(record, lines.value);
  }

  // ---------------------------------------------------------------------------
  // End to end

  /**
   * A saved invoice regenerated against the catalog its cart was priced
   * from gives the same document as the one made when it was generated,
   * provided no earlier record has the same ID. This is a fact about the
   * store as a list of records: the Excel file the tool writes does not
   * give back empty customer fields unchanged.
   */
  lemma RegenerateMatchesFresh(
    records: seq<InvoiceRecord>, lines: seq<LineItem>, catalog: seq<Product>,
    customer: Customer, invoiceId: string, date: string)
    requires forall i :: 0 <= i < |lines| ==> MatchesCatalog(lines[i], catalog) && IsConsistent(lines[i])
    requires forall j :: 0 <= j < |records| ==> records[j].invoiceId != invoiceId
    ensures var record := BuildRecord(lines, customer, invoiceId, date);
      RegeneratedDocument(records + [record], invoiceId, catalog) == CreateDocument(record, lines)
  {
    var record := BuildRecord(lines, customer, invoiceId, date);
    FindSavedRecord(records, record);
    RoundTrip(lines, catalog, customer, invoiceId, date);
  }

  /** When two records share an ID, regenerating it always shows the older one. */
  lemma DuplicateIdShowsOlder(records: seq<InvoiceRecord>, record: InvoiceRecord, catalog: seq<Product>)
    requires FindInvoice(records, record.invoiceId).Some?
    ensures RegeneratedDocument(records + [record], record.invoiceId, catalog)
      == RegeneratedDocument(records, record.invoiceId, catalog)
  {
    FindAfterSave(records, record, record.invoiceId);
    assert (records + [record])[FindInvoice(records, record.invoiceId).value]
      == records[FindInvoice(records, record.invoiceId).value];
  }

  /**
   * Generating an invoice and then regenerating it from the in-memory store
   * gives the same document, when the ID is new to the store and the
   * catalog has not changed in between.
   */
  method GenerateThenRegenerate(cart: Cart, store: InvoiceStore, customer: Customer, idClock: DateTime, uuid: string, now: DateTime)
    returns (generated: Result<InvoiceDocument>, regenerated: Result<InvoiceDocument>)
    requires cart.Valid() && cart.lines != [] && customer.name != ""
    requires IsValidDateTime(idClock) && IsValidDateTime(now)
    requires forall j :: 0 <= j < |store.records| ==> store.records[j].invoiceId != InvoiceId(idClock, uuid)
    modifies cart, store
    ensures regenerated == generated
  {
    var lines := cart.lines;
    var catalog := cart.catalog;
    var before := store.records;
    generated := GenerateInvoice(cart, store, customer, idClock, uuid, now);
    RegenerateMatchesFresh(before, lines, catalog, customer, InvoiceId(idClock, uuid), FormatDateTime(now));
    regenerated := Regenerate(store, InvoiceId(idClock, uuid), catalog);
  }

  /** Two Toilet Cleaner 5L at 10% off the seed MRP of 500: 450 each, 900 before tax, no tax. */
  lemma SeedToiletCleanerLine(p: Product, l: LineItem)
    requires Lookup(SeedCatalog, "Toilet Cleaner 5L") == Some(p)
    requires l == AddedLine(p, "Toilet Cleaner 5L", 10.0, 2)
    ensures l == LineItem(1, "Toilet Cleaner 5L", 500.0, 10.0, 450.0, 2, 0.0, 0.0, 900.0)
  {
    SeedToiletCleaner();
    assert UnitPrice(500.0, 10.0) == 450.0;
  }

  /** The invoice for that one line: 900 before tax, no tax, 900 in all. */
  lemma SeedInvoiceTotals(p: Product, l: LineItem)
    requires Lookup(SeedCatalog, "Toilet Cleaner 5L") == Some(p)
    requires l == AddedLine(p, "Toilet Cleaner 5L", 10.0, 2)
    ensures InvoiceTotals([l]) == Totals(900.0, 0.0, 900.0)
  {
    SeedToiletCleanerLine(p, l);
    OneLineTotals(l);
  }
}
