/**
 * Invoice records: the identifier format, the record a finalised cart
 * becomes (its lines flattened into parallel lists), and the store that
 * collects records in the order they were saved.
 */
module Records {
  import opened Outcomes
  import opened Calendar
  import opened Pricing

  datatype Customer = Customer(name: string, email: string, phone: string, address: string)

  /**
   * The two shapes a stored record has. Records written by the current
   * version carry per-line MRPs, discounts and prices; older ones only carry
   * products and quantities, and their `mrps` column reads as missing.
   */
  datatype Schema =
    | NewSchema(mrps: seq<real>, discounts: seq<real>, prices: seq<real>)
    | OldSchema

  datatype InvoiceRecord = InvoiceRecord(
    invoiceId: string,
    date: string,
    customer: Customer,
    products: seq<string>,
    quantities: seq<int>,
    schema: Schema,
    subtotal: real,
    tax: real,
    total: real
  )

  // ---------------------------------------------------------------------------
  // Invoice identifiers

  /** The first four characters of the random UUID text (all of it, if shorter). */
  function IdSuffix(uuid: string): (s: string)
    ensures |s| == Min(4, |uuid|) && s == uuid[..|s|]
  {
    uuid[..Min(4, |uuid|)]
  }

  /** "INV-" + the clock's %Y%m%d%H%M%S timestamp + "-" + the random suffix. */
  function InvoiceId(clock: DateTime, uuid: string): (id: string)
    requires IsValidDateTime(clock)
    ensures |id| == 19 + |IdSuffix(uuid)| && |id| <= 23
    ensures id[..4] == "INV-" && id[18] == '-'
    ensures forall i :: 4 <= i < 18 ==> IsDigit(id[i])
    ensures id[4..18] == Stamp(clock) && id[19..] == IdSuffix(uuid)
  {
    "INV-" + Stamp(clock) + "-" + IdSuffix(uuid)
  }

  /**
   * An invoice ID determines the second it was generated in and its random
   * suffix: IDs generated in different seconds never collide.
   */
  lemma InvoiceIdInjective(t1: DateTime, u1: string, t2: DateTime, u2: string)
    requires IsValidDateTime(t1) && IsValidDateTime(t2)
    requires InvoiceId(t1, u1) == InvoiceId(t2, u2)
    ensures t1 == t2 && IdSuffix(u1) == IdSuffix(u2)
  {
    var id := InvoiceId(t1, u1);
    assert id[4..18] == Stamp(t1);
    assert InvoiceId(t2, u2)[4..18] == Stamp(t2);
    StampInjective(t1, t2);
    assert id[19..] == IdSuffix(u1);
    assert InvoiceId(t2, u2)[19..] == IdSuffix(u2);
  }

  // ---------------------------------------------------------------------------
  // Building a record from the cart

  /**
   * The record saved for a cart: the customer, the five parallel lists taken
   * line by line from the cart, and the cart's totals.
   */
  function BuildRecord(lines: seq<LineItem>, customer: Customer, invoiceId: string, date: string): (r: InvoiceRecord)
    ensures r.invoiceId == invoiceId && r.date == date && r.customer == customer
    ensures r.schema.NewSchema?
    ensures |r.products| == |r.quantities| == |r.schema.mrps| == |r.schema.discounts| == |r.schema.prices| == |lines|
    ensures forall i :: 0 <= i < |lines| ==>
      && r.products[i] == lines[i].productName
      && r.quantities[i] == lines[i].quantity
      && r.schema.mrps[i] == lines[i].mrp
      && r.schema.discounts[i] == lines[i].discount
      && r.schema.prices[i] == lines[i].price
    ensures r.subtotal == Sum(Amounts(lines)) && r.tax == Sum(TaxAmounts(lines))
    ensures r.total == r.subtotal + r.tax
  {
    var totals := InvoiceTotals(lines);
    InvoiceRecord(
      invoiceId, date, customer,
      seq(|lines|, i requires 0 <= i < |lines| => lines[i].productName),
      seq(|lines|, i requires 0 <= i < |lines| => lines[i].quantity),
      NewSchema(
        seq(|lines|, i requires 0 <= i < |lines| => lines[i].mrp),
        seq(|lines|, i requires 0 <= i < |lines| => lines[i].discount),
        seq(|lines|, i requires 0 <= i < |lines| => lines[i].price)),
      totals.subtotal, totals.tax, totals.total)
  }

  // ---------------------------------------------------------------------------
  // The store

  /** The position of the first record with the given ID, as `df[df['invoice_id'] == id].iloc[0]` picks it. */
  function FindInvoice(records: seq<InvoiceRecord>, invoiceId: string): (r: Option<nat>)
    ensures r.Some? ==> r.value < |records| && records[r.value].invoiceId == invoiceId
    ensures r.Some? ==> forall j :: 0 <= j < r.value ==> records[j].invoiceId != invoiceId
    ensures r.None? <==> forall j :: 0 <= j < |records| ==> records[j].invoiceId != invoiceId
  {
    if records == [] then None
    else
      match FindInvoice(records[..|records| - 1], invoiceId)
      case Some(k) => Some(k)
      case None =>
        if records[|records| - 1].invoiceId == invoiceId then Some(|records| - 1) else None
  }

  /** Saving a record does not change which record an earlier ID finds. */
  lemma FindAfterSave(records: seq<InvoiceRecord>, record: InvoiceRecord, invoiceId: string)
    requires FindInvoice(records, invoiceId).Some?
    ensures FindInvoice(records + [record], invoiceId) == FindInvoice(records, invoiceId)
  {
    assert (records + [record])[..|records|] == records;
  }

  /** A saved record whose ID is new to the store is the one its ID finds. */
  lemma FindSavedRecord(records: seq<InvoiceRecord>, record: InvoiceRecord)
    requires forall j :: 0 <= j < |records| ==> records[j].invoiceId != record.invoiceId
    ensures FindInvoice(records + [record], record.invoiceId) == Some(|records|)
  {
    assert (records + [record])[..|records|] == records;
  }

  /** The saved invoices, oldest first. */
  class InvoiceStore {
    var records: seq<InvoiceRecord>

    /** A store with no invoices yet, as a missing invoice file reads. */
    constructor ()
      ensures records == []
    {
      records := [];
    }

    /** save_invoice: read every record, append the new one, write them all back. */
    method Save(record: InvoiceRecord) returns (saved: bool)
      modifies this
      ensures saved
      ensures records == old(records) + [record]
    {
      var existing := records;
      records := existing + [record];
      saved := true;
    }
  }
}
