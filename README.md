# Invoice generator: a verified model

This is a Dafny model of the invoicing core of a small Streamlit tool. The tool keeps a product catalog, builds a cart of priced lines and saves each finished invoice as a record. It can regenerate the PDF of any earlier invoice from that record.

The model covers these parts of the tool:

- **Pricing and totals.** The unit price is the MRP less a percentage discount. A line's amount is price × quantity, and its tax amount is the amount × the product's tax rate. The subtotal, tax and total are left-to-right sums over the cart.
- **The cart.** It is a class holding the ordered lines. Adding a product appends exactly one line. Removal is modelled as Python's `list.pop(i)` in general, negative indices and the `IndexError` included. The remove button itself only passes the in-range indices that `enumerate` gives it (lines 379-390). The cart is emptied once an invoice has been made.
- **Finalising an invoice.** An empty customer name is refused. Otherwise a record is built, and its products, quantities, MRPs, discounts and prices are stored as parallel lists. The record is appended to the invoice store, the document is made, and only then is the cart cleared.
- **The invoice ID.** It is `"INV-"`, then a 14-digit `%Y%m%d%H%M%S` timestamp, then `"-"`, then the first four characters of a UUID. The clock reading and the UUID text are parameters.
- **Regenerating an invoice.** The first record with the chosen ID is found. Its lines are rebuilt by one of two paths:
  - Records written by the current version carry MRPs, discounts and prices. Those values are reused, and only the product ID and tax rate are taken from the catalog.
  - Older records only carry products and quantities. Those lines are repriced from the catalog's current MRP and default discount.
  - In both paths products and quantities are paired as `zip` pairs them, stopping at the shorter list. A product missing from the catalog stops the rebuild.
- **The document's content.** The details table shows the ID, the stored date and a due date 30 days after the stored date. The billed-to block follows. The items table has a 7-column header, one row per line and three summary rows. The summary rows show the totals stored in the record.

The main results are these:

- **Round trip.** A cart flattened into a record and rebuilt against the same catalog comes back line for line (`Rehydration.RoundTrip`). So, with the store held as an in-memory list of records, regenerating a just-saved invoice gives the same document as the one made when it was saved (`Invoicing.RegenerateMatchesFresh`, `Invoicing.GenerateThenRegenerate`). The tool's real store goes through an Excel file, which is not lossless for empty customer fields (see Left out).
- **Old records.** An old-schema record follows later catalog changes. Its item rows can then disagree with its stored totals (`Rehydration.OldRecordFollowsCatalogChange`).
- **Calendar.** The due date is computed on a proleptic Gregorian calendar. Leap years, month ends and year ends are handled, and dates after year 9999 overflow. The due date is characterised by its day number, the analogue of Python's `toordinal`.

Modules, one per file: `Outcomes` (errors, `Option`, `Result`), `Calendar`, `Catalog`, `Pricing`, `Cart`, `Records`, `Rehydration`, `Document` and `Invoicing`.

Where the code and the tool's description differ, the model follows the code:

- `Cart.PopAt` is `list.pop(i)` for every index, negative ones included. The button at line 390 only ever uses the in-range index of the row it sits on.
- The invoice ID's timestamp and the record's date come from two separate clock readings (lines 100 and 423). They are two parameters and can differ.
- New-schema rehydration takes the tax rate from the current catalog, not from the record.
- Old-schema rehydration reprices from the catalog's current defaults. So the item rows can disagree with the record's stored totals.
- The record is saved before the PDF is built. A due date that cannot be computed therefore leaves a saved record and an uncleared cart.

## Model

| member | source | states |
|---|---|---|
| Pricing.UnitPrice | invoice_claude_dis.py:52-53 | the discounted price lies between 0 and the MRP for a discount in 0..100; a 0% discount keeps the MRP and a 100% discount gives 0 |
| Pricing.UnitPriceAntitone | invoice_claude_dis.py:52-53 | a larger discount never gives a higher price |
| Pricing.UnitPriceDeterminesDiscount | invoice_claude_dis.py:52-53 | for a non-zero MRP, the price determines the discount |
| Pricing.MakeLine | invoice_claude_dis.py:360-370 | a line's amount is price × quantity, its tax amount is amount × tax rate, and its product ID and tax rate are the catalog product's |
| Pricing.LineBounds | invoice_claude_dis.py:336-370 | a line the add form can produce has a price within 0..MRP, an amount within 0..MRP × quantity, and a non-negative tax amount |
| Pricing.InvoiceTotals | invoice_claude_dis.py:394-396 | the total is the subtotal plus the tax, and an empty cart has all three at 0; the subtotal sums the lines' amounts and the tax their tax amounts, in cart order, as `TotalsOfConcat`, `TotalsAfterAppend`, `OneLineTotals` and `TotalsAfterRemoval` state |
| Pricing.OneLineTotals | invoice_claude_dis.py:394-396 | a one-line cart's subtotal is that line's amount, its tax the line's tax amount, and its total their sum |
| Pricing.Sum | invoice_claude_dis.py:394-395 | `sum()` of an empty list is 0, a sum of non-negative terms is non-negative, and a sum of zeros is zero |
| Pricing.SumConcat | invoice_claude_dis.py:394-395 | `sum()` adds left to right from 0: the sum of two joined lists is the sum of their sums |
| Pricing.TotalsOfConcat | invoice_claude_dis.py:394-396 | subtotal, tax and total are additive over joined carts |
| Pricing.TotalsAfterAppend | invoice_claude_dis.py:360-396 | adding a line raises the subtotal by its amount, the tax by its tax amount, and the total by both |
| Pricing.TotalsAfterRemoval | invoice_claude_dis.py:388-396 | removing the line at k lowers the subtotal and tax by exactly that line's amounts |
| Pricing.TotalsNonNegative | invoice_claude_dis.py:394-396 | with non-negative MRPs and tax rates, subtotal and tax are non-negative and the total is at least the subtotal |
| Pricing.TaxFreeTotals | invoice_claude_dis.py:394-396 | a cart of tax-free lines has zero tax and a total equal to its subtotal |
| Catalog.FindFrom | invoice_claude_dis.py:329 | the position found holds the name and no earlier position from the start does; none is found only when no position holds it |
| Catalog.Lookup | invoice_claude_dis.py:329 | `.iloc[0]` on the name filter: a product with the name from the catalog, and no product exactly when no catalog row has the name |
| Catalog.LookupIsFirst | invoice_claude_dis.py:329 | the product found comes no later than any product with the same name |
| Catalog.LookupAt | invoice_claude_dis.py:505 | a product with no same-named predecessor is exactly what its name looks up |
| Catalog.SeedCatalogIsTaxFree | invoice_claude_dis.py:40-46 | every seed product has a tax rate of 0, a non-negative MRP and a default discount in 0..100 |
| Catalog.SeedToiletCleaner | invoice_claude_dis.py:40-46 | "Toilet Cleaner 5L" looks up to ID 1, tax 0, MRP 500, default discount 10 |
| Catalog.SeedHandwash | invoice_claude_dis.py:40-46 | "Handwash 5L" looks up to ID 2, tax 0, MRP 500, default discount 50 |
| Cart.PopAt | invoice_claude_dis.py:390 | `list.pop(i)` succeeds exactly for -len ≤ i < len, otherwise raises IndexError(i); it returns the element at i (counted from the end when negative), keeps the others in order and loses nothing |
| Cart.TotalsAfterPop | invoice_claude_dis.py:388-396 | popping a line lowers the subtotal and tax by exactly the popped line's amounts |
| Cart.PopExamples | invoice_claude_dis.py:390 | popping position 0 of a one-element list leaves it empty; popping an empty list raises IndexError(0) |
| Cart.AddedLine | invoice_claude_dis.py:336-370 | the appended line carries the chosen product's MRP, ID and tax rate and the form's discount and quantity; it is consistent, and its price lies within 0..MRP |
| Cart.Cart.constructor | invoice_claude_dis.py:314-315 | a session starts with an empty cart |
| Cart.Cart.Add | invoice_claude_dis.py:360-370 | appends exactly one line for a catalog product, and leaves the cart unchanged with ProductNotFound otherwise; every line stays consistent and priced from the catalog |
| Cart.Cart.Remove | invoice_claude_dis.py:388-391 | the cart becomes what `pop(i)` leaves, or stays unchanged on IndexError |
| Cart.Cart.Clear | invoice_claude_dis.py:473 | the cart is empty |
| Records.InvoiceId | invoice_claude_dis.py:98-102 | the ID is "INV-", the 14-digit `%Y%m%d%H%M%S` stamp of the clock reading at positions 4..18, "-", and from position 19 the first min(4, len) characters of the UUID text: 19 to 23 characters |
| Records.InvoiceIdInjective | invoice_claude_dis.py:98-102 | equal IDs mean the same clock second and the same suffix |
| Records.BuildRecord | invoice_claude_dis.py:421-436 | the record's five lists run parallel to the cart's lines; it is new-schema, and subtotal, tax and total are the sums over the cart |
| Records.FindInvoice | invoice_claude_dis.py:490 | finds the first record with the ID, and finds none exactly when no record has it |
| Records.FindAfterSave | invoice_claude_dis.py:105-109 | appending a record does not change what an already-present ID finds |
| Records.FindSavedRecord | invoice_claude_dis.py:105-109 | a record saved under a new ID is found at the end of the store |
| Records.InvoiceStore.constructor | invoice_claude_dis.py:56-67 | a missing invoice file reads as no records |
| Records.InvoiceStore.Save | invoice_claude_dis.py:105-109 | the store becomes the old records followed by the new one, and saving reports success |
| Calendar.NextDay | invoice_claude_dis.py:187 | the next calendar day has a day number one higher |
| Calendar.AddDays | invoice_claude_dis.py:187 | adding n days gives a valid date whose day number is n higher |
| Calendar.DaysBeforeYearMonotone | invoice_claude_dis.py:187 | each later year starts at least 365 day numbers further on |
| Calendar.DayNumberInjective | invoice_claude_dis.py:187 | distinct valid dates have distinct day numbers |
| Calendar.FormatDate | invoice_claude_dis.py:188 | `%Y-%m-%d` gives ten characters, dashes at positions 4 and 7 and digits everywhere else |
| Calendar.FormatDateTime | invoice_claude_dis.py:423 | `%Y-%m-%d %H:%M:%S` gives nineteen characters: the `%Y-%m-%d` text, a space, and colons at positions 13 and 16 |
| Calendar.Pad | invoice_claude_dis.py:188 | zero padding gives exactly `width` digits |
| Calendar.PadValue | invoice_claude_dis.py:188 | the padded digits read back as the number |
| Calendar.PadInjective | invoice_claude_dis.py:100 | different numbers below 10^width pad to different digit strings |
| Calendar.Stamp | invoice_claude_dis.py:100 | `%Y%m%d%H%M%S` gives exactly fourteen digits |
| Calendar.StampInjective | invoice_claude_dis.py:100 | the 14-digit `%Y%m%d%H%M%S` stamp determines the clock reading |
| Calendar.ParseDate | invoice_claude_dis.py:186-187 | `strptime(..., "%Y-%m-%d")` accepts only a valid date, and that date formats back to the same text |
| Calendar.ParseFormatDate | invoice_claude_dis.py:186-188 | every valid date formatted with `%Y-%m-%d` parses back to itself |
| Calendar.FieldStart | invoice_claude_dis.py:186 | the first field starts just past the leading whitespace |
| Calendar.FirstField | invoice_claude_dis.py:186 | `split()[0]`: no field exactly when the text is all whitespace; otherwise a non-empty run of non-space characters that sits in the text right after the leading whitespace and ends at a space or at the end of the text |
| Calendar.FirstFieldOfDateTime | invoice_claude_dis.py:423 | the first field of a stored `%Y-%m-%d %H:%M:%S` date is its `%Y-%m-%d` part |
| Calendar.DueDate | invoice_claude_dis.py:186-188 | the due date exists exactly when the stored date has a first field that parses and thirty days later stays within year 9999; its day number is then 30 more than the issue date's |
| Calendar.DueDateOfRecordDate | invoice_claude_dis.py:186-188 | a record dated from clock reading t is due thirty days after t's date |
| Calendar.DueDateIsUnique | invoice_claude_dis.py:187 | exactly one date lies 30 day numbers after the issue date |
| Calendar.DueDateAcrossLeapFebruary | invoice_claude_dis.py:187-188 | 2024-02-15 is due 2024-03-16 |
| Calendar.DueDateAcrossCommonFebruary | invoice_claude_dis.py:187-188 | 2023-02-15 is due 2023-03-17 |
| Calendar.DueDateAcrossYearEnd | invoice_claude_dis.py:187-188 | 2023-12-15 is due 2024-01-14 |
| Calendar.DueDateOverflows | invoice_claude_dis.py:187-188 | a record dated 9999-12-15 has no due date |
| Rehydration.PairCount | invoice_claude_dis.py:504 | `zip` stops at the shorter list: the pair count is the length of one list and no more than either |
| Rehydration.LineAt | invoice_claude_dis.py:505-518 | one pair rebuilds exactly when its product is in the catalog and, for a new-schema record, its index has an MRP, discount and price; a missing product fails with ProductNotFound naming it and a missing stored value with IndexError; a rebuilt line keeps the pair's product and quantity and takes ID and tax rate from the catalog, and an old-schema line is consistent |
| Rehydration.Rehydrated | invoice_claude_dis.py:497-538 | a rebuilt record has one line per `zip` pair, each carrying that pair's product and quantity and priced from the catalog |
| Rehydration.RehydratedPrefix | invoice_claude_dis.py:503-538 | rebuilding succeeds exactly when every pair rebuilds, giving one line per pair in order; otherwise the first failing pair's error is returned |
| Rehydration.FailureIsFinal | invoice_claude_dis.py:503-538 | once a pair fails, later pairs do not change the outcome |
| Rehydration.Rehydrate | invoice_claude_dis.py:497-538 | the two loops yield exactly the specified rebuilt lines or the first error |
| Rehydration.RehydrationSucceeds | invoice_claude_dis.py:497-538 | rebuilding succeeds if and only if every paired product is in the catalog and, for a new-schema record, every paired index has an MRP, discount and price; it yields min(len(products), len(quantities)) lines |
| Rehydration.MissingProductFails | invoice_claude_dis.py:505 | the first paired product absent from the catalog stops the rebuild with ProductNotFound naming it |
| Rehydration.NewSchemaLines | invoice_claude_dis.py:499-518 | new-schema lines reuse the stored MRP, discount, price and quantity, take the product ID and tax rate from the catalog, and recompute the amounts from the stored price |
| Rehydration.OldSchemaLines | invoice_claude_dis.py:520-538 | old-schema lines use the catalog's current MRP and default discount and are consistent |
| Rehydration.RebuildsParallelLines | invoice_claude_dis.py:499-518 | a new-schema record whose parallel lists are those of catalog-priced, consistent lines rebuilds to exactly those lines |
| Rehydration.RoundTrip | invoice_claude_dis.py:499-518 | a cart saved as a record and rebuilt against the same catalog comes back unchanged |
| Rehydration.RoundTripTotals | invoice_claude_dis.py:433-435 | after the round trip, the stored totals are the totals of the rebuilt lines |
| Rehydration.OldHandwashRecord | invoice_claude_dis.py:520-538 | three Handwash 5L in an old record rebuild against the seed catalog at 250 each, 750 in all |
| Rehydration.OldSinglePair | invoice_claude_dis.py:520-538 | a one-pair old-schema record rebuilds to the single line priced at the catalog's current MRP and default discount |
| Rehydration.OldRecordFollowsCatalogChange | invoice_claude_dis.py:520-538 | after the default discount drops to 40%, the same record rebuilds at 300 each; the rows then add up to 900, 150 more than the stored 750 |
| Document.ItemRow | invoice_claude_dis.py:223-232 | each line gives one row of the header's seven columns |
| Document.TotalsRow | invoice_claude_dis.py:234-236 | each summary row has the same seven columns |
| Document.ItemTable | invoice_claude_dis.py:220-236 | the header, one row per line in order, then subtotal, tax and total rows showing the record's stored values; seven columns throughout |
| Document.BuildItemTable | invoice_claude_dis.py:220-236 | the loop builds exactly that table |
| Document.InfoTable | invoice_claude_dis.py:184-189 | exists exactly when the due date does; its rows are the invoice ID, the stored date and the due date |
| Document.CreateDocument | invoice_claude_dis.py:184-236 | the document exists exactly when the due date does, with the same error otherwise; its parts are the details table, the billed-to block (the heading "Billed To:" followed by the customer's name, email, phone and address, lines 202-208) and the items table |
| Document.ItemRowShowsLine | invoice_claude_dis.py:223-232 | equal rows come from lines equal in every field but the product ID and tax rate |
| Document.SummaryMatchesRows | invoice_claude_dis.py:234-236 | for a fresh record, the summary rows show the sums of the Amount and Tax columns |
| Document.DueDateShown | invoice_claude_dis.py:186-188 | the document of a record dated from clock reading t shows the date thirty days after t |
| Invoicing.GenerateInvoice | invoice_claude_dis.py:413-473 | an empty name is refused with nothing changed; otherwise the built record is appended to the store and the document made; the cart is emptied only when the document exists |
| Invoicing.RegeneratedDocument | invoice_claude_dis.py:488-541 | an unknown ID raises IndexError; otherwise the first matching record's rebuilt lines are used, and the rebuild error propagates |
| Invoicing.Regenerate | invoice_claude_dis.py:488-541 | the action yields exactly that document or error |
| Invoicing.RegenerateMatchesFresh | invoice_claude_dis.py:488-541 | a record saved under a new ID regenerates to the document made when it was saved |
| Invoicing.DuplicateIdShowsOlder | invoice_claude_dis.py:490 | a later record reusing an ID never changes what that ID regenerates |
| Invoicing.GenerateThenRegenerate | invoice_claude_dis.py:413-541 | generating and then regenerating with an unchanged catalog give the same result |
| Invoicing.SeedToiletCleanerLine | invoice_claude_dis.py:336-370 | two Toilet Cleaner 5L at 10% off the seed MRP give a line at 450 each, 900 in all, no tax |
| Invoicing.SeedInvoiceTotals | invoice_claude_dis.py:394-396 | that line alone gives totals 900 / 0 / 900 |

## Left out

- Streamlit widgets, page layout, reruns and session handling: the model's state is the cart's lines and the store's records.
- Excel, JSON and gspread reading and writing: the store is an in-memory list of records, and reading and writing the whole file is an append.
- The store's round trip through `to_excel` (line 108) and `read_excel` (line 58) is taken as lossless. It is not: an empty email, phone or address comes back as NaN, and the regenerated billed-to block (lines 202-208) then prints "nan". `Invoicing.RegenerateMatchesFresh` and `Invoicing.GenerateThenRegenerate` hold of the in-memory store.
- The `eval` of stored list texts: a record holds the lists themselves, and a missing `mrps` column is the `OldSchema` variant.
- ReportLab layout, fonts, colours, the company header and logo, and the download link: the document is modelled as the cells of its tables.
- Number formatting (`INR {:.2f}`, `{:.1f}%`): a cell keeps the exact value and a tag for how it is printed.
- Floating point: money is exact `real` arithmetic, without IEEE rounding.
- The clock and `uuid4`: they are parameters. Whether IDs are unique depends on the random suffix, and the model states it only under an explicit no-duplicate precondition.
- Company settings, the logo upload and the settings form are not part of the core being modelled.
- Calendar.ParseDate: `strptime` also accepts single-digit month and day fields, and the model accepts only the zero-padded form the tool itself writes.
- Calendar.FirstField: only ASCII whitespace separates fields, not the other Unicode spaces `str.split` recognises.
- Calendar.DueDate: the upper bound of the date range is modelled as year 9999. The exact overflow point of the pandas timestamp addition is not modelled.
- Catalog loading from `products.xlsx` is commented out in the source. The model takes the catalog as a parameter throughout, and the built-in seed catalog is one constant of it, built from its column lists.
- The fallback file name that `load_invoice_data` writes when the invoice file is missing is file I/O and is not modelled.
