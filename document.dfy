/**
 * The content of an invoice PDF: the details table (ID, date, due date), the
 * billed-to block and the items table. Layout, fonts, colours and the
 * company header are presentation only; what is modelled is which cells the
 * tables hold. Amounts stay exact values, tagged with how they are printed.
 */
module Document {
  import opened Outcomes
  import opened Calendar
  import opened Pricing
  import opened Records

  /** A table cell: literal text, an "INR x.xx" amount, an "x.x%" percentage or a quantity. */
  datatype Cell = Text(text: string) | Inr(amount: real) | Percent(percent: real) | Count(count: int)

  const ItemColumns: nat := 7

  const ItemHeader: seq<Cell> :=
    [Text("Item"), Text("MRP"), Text("Discount %"), Text("Price"), Text("Quantity"), Text("Tax"), Text("Amount")]

  /** The items-table row of one line, in the header's column order. */
  function ItemRow(l: LineItem): (row: seq<Cell>)
    ensures |row| == ItemColumns
  {
    [Text(l.productName), Inr(l.mrp), Percent(l.discount), Inr(l.price), Count(l.quantity), Inr(l.taxAmount), Inr(l.amount)]
  }

  /** A summary row: five empty cells, a label under "Tax" and an amount under "Amount". */
  function TotalsRow(caption: string, amount: real): (row: seq<Cell>)
    ensures |row| == ItemColumns
  {
    [Text(""), Text(""), Text(""), Text(""), Text(""), Text(caption), Inr(amount)]
  }

  /** Every row of a table has the same number of cells. */
  ghost predicate IsRectangular(rows: seq<seq<Cell>>, width: nat)
  {
    forall i :: 0 <= i < |rows| ==> |rows[i]| == width
  }

  /**
   * The items table: the header, one row per line in order, then subtotal,
   * tax and total rows. The summary rows show the amounts stored in the
   * record, not sums of the rows above them.
   */
  function ItemTable(record: InvoiceRecord, lines: seq<LineItem>): (rows: seq<seq<Cell>>)
    ensures |rows| == |lines| + 4 && IsRectangular(rows, ItemColumns)
    ensures rows[0] == ItemHeader
    ensures forall i :: 0 <= i < |lines| ==> rows[i + 1] == ItemRow(lines[i])
    ensures rows[|lines| + 1] == TotalsRow("Subtotal:", record.subtotal)
    ensures rows[|lines| + 2] == TotalsRow("Tax Total:", record.tax)
    ensures rows[|lines| + 3] == TotalsRow("Total:", record.total)
  {
    [ItemHeader]
    + seq(|lines|, i requires 0 <= i < |lines| => ItemRow(lines[i]))
    + [TotalsRow("Subtotal:", record.subtotal), TotalsRow("Tax Total:", record.tax), TotalsRow("Total:", record.total)]
  }

  /** The items table built as the PDF builder does it: header, a loop over the lines, three summary rows. */
  method BuildItemTable(record: InvoiceRecord, lines: seq<LineItem>) returns (rows: seq<seq<Cell>>)
    ensures rows == ItemTable(record, lines)
  {
    rows := [ItemHeader];
    var i := 0;
    while i < |lines|
      invariant 0 <= i <= |lines|
      invariant |rows| == i + 1 && rows[0] == ItemHeader
      invariant forall j :: 0 <= j < i ==> rows[j + 1] == ItemRow(lines[j])
    {
      rows := rows + [ItemRow(lines[i])];
      i := i + 1;
    }
    rows := rows + [TotalsRow("Subtotal:", record.subtotal)];
    rows := rows + [TotalsRow("Tax Total:", record.tax)];
    rows := rows + [TotalsRow("Total:", record.total)];
  }

  /**
   * The details table: invoice ID, the stored date text, and the due date.
   * It fails exactly when the due date cannot be computed from the stored date.
   */
  function InfoTable(record: InvoiceRecord): (r: Result<seq<seq<Cell>>>)
    ensures r.Success? <==> DueDate(record.date).Success?
    ensures r.Failure? ==> r.error == DueDate(record.date).error
    ensures r.Success? ==> |r.value| == 3 && IsRectangular(r.value, 2)
    ensures r.Success? ==> r.value[0] == [Text("Invoice #:"), Text(record.invoiceId)]
    ensures r.Success? ==> r.value[1] == [Text("Date:"), Text(record.date)]
    ensures r.Success? ==> r.value[2] == [Text("Due Date:"), Text(DueDate(record.date).value)]
  {
    match DueDate(record.date)
    case Failure(e) => Failure(e)
    case Success(due) => Success(DetailRows(record.invoiceId, record.date, due))
  }

  /** The three label/value rows of the details table. */
  function DetailRows(invoiceId: string, date: string, due: string): (rows: seq<seq<Cell>>)
    ensures |rows| == 3 && IsRectangular(rows, 2)
    ensures rows[0] == [Text("Invoice #:"), Text(invoiceId)]
    ensures rows[1] == [Text("Date:"), Text(date)]
    ensures rows[2] == [Text("Due Date:"), Text(due)]
  {
    [[Text("Invoice #:"), Text(invoiceId)], [Text("Date:"), Text(date)], [Text("Due Date:"), Text(due)]]
  }

  /** The billed-to block: a heading, then the customer's name, email, phone and address. */
  function BilledTo(c: Customer): (rows: seq<string>)
    ensures |rows| == 5 && rows[0] == "Billed To:"
    ensures rows[1..] == [c.name, c.email, c.phone, c.address]
  {
    ["Billed To:", c.name, c.email, c.phone, c.address]
  }

  datatype InvoiceDocument = InvoiceDocument(info: seq<seq<Cell>>, billedTo: seq<string>, items: seq<seq<Cell>>)

  /**
   * create_pdf_invoice: the document for a record and the lines to show.
   * The details table comes first, so a date whose due date cannot be
   * computed stops the whole document.
   */
  function CreateDocument(record: InvoiceRecord, lines: seq<LineItem>): (r: Result<InvoiceDocument>)
    ensures r.Success? <==> DueDate(record.date).Success?
    ensures r.Failure? ==> r.error == DueDate(record.date).error
    ensures r.Success? ==> r.value.info == InfoTable(record).value
    ensures r.Success? ==> r.value.billedTo == BilledTo(record.customer)
    ensures r.Success? ==> r.value.items == ItemTable(record, lines)
  {
    match InfoTable(record)
    case Failure(e) => Failure(e)
    case Success(info) => Success(InvoiceDocument(info, BilledTo(record.customer), ItemTable(record, lines)))
  }

  // ---------------------------------------------------------------------------
  // What the tables show

  /** Different lines never share an items-table row: the row shows every field but the ID and tax rate. */
  lemma ItemRowShowsLine(l1: LineItem, l2: LineItem)
    requires ItemRow(l1) == ItemRow(l2)
    ensures l1.productName == l2.productName && l1.mrp == l2.mrp && l1.discount == l2.discount
    ensures l1.price == l2.price && l1.quantity == l2.quantity
    ensures l1.taxAmount == l2.taxAmount && l1.amount == l2.amount
  {
    assert ItemRow(l1)[0] == ItemRow(l2)[0] && ItemRow(l1)[1] == ItemRow(l2)[1];
    assert ItemRow(l1)[2] == ItemRow(l2)[2] && ItemRow(l1)[3] == ItemRow(l2)[3];
    assert ItemRow(l1)[4] == ItemRow(l2)[4] && ItemRow(l1)[5] == ItemRow(l2)[5];
    assert ItemRow(l1)[6] == ItemRow(l2)[6];
  }

  /**
   * For a freshly built record the summary rows agree with the item rows:
   * the subtotal is the sum of the Amount column and the tax total the sum
   * of the Tax column.
   */
  lemma SummaryMatchesRows(lines: seq<LineItem>, customer: Customer, invoiceId: string, date: string)
    ensures var record := BuildRecord(lines, customer, invoiceId, date);
      var rows := ItemTable(record, lines);
      && rows[|lines| + 1][6] == Inr(InvoiceTotals(lines).subtotal)
      && rows[|lines| + 2][6] == Inr(InvoiceTotals(lines).tax)
      && rows[|lines| + 3][6] == Inr(InvoiceTotals(lines).total)
      && (forall i :: 1 <= i <= |lines| ==> rows[i][6] == Inr(Amounts(lines)[i - 1]))
      && (forall i :: 1 <= i <= |lines| ==> rows[i][5] == Inr(TaxAmounts(lines)[i - 1]))
  {
  }

  /**
   * For a record dated from a clock reading t, the document exists unless
   * thirty days after t leaves year 9999, and it shows the date thirty days
   * after t as the due date.
   */
  lemma DueDateShown(record: InvoiceRecord, lines: seq<LineItem>, t: DateTime)
    requires IsValidDateTime(t) && record.date == FormatDateTime(t)
    requires AddDays(t.date, PaymentTermDays).year <= MaxYear
    ensures CreateDocument(record, lines).Success?
    ensures CreateDocument(record, lines).value.info[2]
      == [Text("Due Date:"), Text(FormatDate(AddDays(t.date, PaymentTermDays)))]
  {
    DueDateOfRecordDate(t);
  }
}
