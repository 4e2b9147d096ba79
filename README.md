# Accounting core of freelancer-test-repo, modelled in Dafny

The repository is a multi-tenant small-business accounting application. This
project models the business logic at its centre and proves what that logic
promises:

- **Invoice pricing and booking** (`InvoiceService`).
  - Each line is priced as unit price times quantity, minus a discount
    rounded HALF_UP, plus the VAT the VAT service charges.
  - The invoice totals are reset and accumulated.
  - The invoice is numbered `"{year}-{count + 1}"`.
  - The invoice is booked as a voucher: 1500 for the total, 3000 for the
    discounted subtotal, and one 2700 output-VAT posting per line with a
    non-zero rate.
  - Central result: the voucher balances whenever the VAT service charges no
    VAT at a ZERO rate, and it balances exactly when the ZERO-rated lines'
    VAT sums to zero.
- **Expense ledger** (`ExpenseService`, `ExpenseRepository`).
  - An expense's amount is the sum of its costs.
  - The category-to-account table falls back to 7790.
  - The two-posting expense voucher always balances.
  - Costs are replaced wholesale on update.
  - Missing identifiers give "Expense not found".
  - The status CASE moves OPEN to DELIVERED to APPROVED.
- **Product catalogue** (`ProductService`, `VariantTables`).
  - The variant repository is an in-memory table.
  - createVariants makes a single default variant, or upserts by
    (product, option map). Duplicate option maps collapse into one row with
    the first SKU, the last price and the 32-bit sum of the stock.
  - processVariantUpdates does delete, stock-only update, insert, or nothing.
  - The replace-all path of updateProduct is modelled.
  - deleteProduct cascades to variants, options and option values.
  - Standard options and values get positions by index.
- **Famme import** (`ProductSync`).
  - Size falls back from option3 to option2.
  - Availability becomes stock 1 or 0.
  - The option map is built from colour and size.
  - HTML tags are stripped and the text trimmed.
  - At most 50 products are taken per sync.
- **Expense file picker** (`ExpenseDragDrop`, the page script): the
  `selectedFiles` array, deduplicated by (name, size), filtered on removal,
  mirrored into the file input and summarised in a label.

Shared modules:

| Module | Models |
|---|---|
| `BigDecimals` | java.math.BigDecimal as an unscaled integer plus a scale, with its scale rules and HALF_UP division |
| `JvmInt` | the JVM's 32-bit `Int` with wrap-around addition |
| `Text` | integer rendering, Kotlin `trim` and `joinToString` |
| `Seqs` | `filter` |
| `Wrappers` | `Option`, `Result` and `Outcome` for nullables and thrown exceptions |
| `LedgerPayloads` | the voucher and posting payloads, and "balanced" (the signed amounts sum to zero) |

How the model is built:

- The stateful code is written imperatively.
  - The invoice is a class whose lines and totals the pricing loop updates.
  - Each service is a class over its tables.
  - The file picker is a class over `selectedFiles`.
- Each method is proved against a function of its inputs and old state.
  That function's properties are then proved as lemmas.
- The pure code (import mapping, category table, status CASE, numbering) is
  written as functions.

Collaborators whose code is not part of the model are parameters:

- The VAT service's code lookup and VAT calculation are function parameters.
- The repository's generated identifiers and its per-year invoice count are
  parameters.
- The customer's name is a parameter.
- The expense category table and the chart of accounts are read-only fields.
- `LocalDate.now()` is a date parameter.
- The Famme price conversion is a parameter.

### Behaviour worth knowing

The model follows the code in each of these cases.

**Rounding and VAT**
- **Discount rounding.** The discount is rounded HALF_UP at the scale of
  `subTotal * discount`, not at two places, because
  `divide(BigDecimal(100), HALF_UP)` keeps the dividend's scale.
  `DiscountRoundsAtProductScale` exhibits this: 0.05 at 10.00 % off gives a
  discount of 0.0050.
- **VAT amount.** The line's VAT is whatever `calculateVatAmount` returns,
  with no rounding of its own in `InvoiceService`, so the VAT is a
  parameter.

**Invoices**
- **Invoice numbers.** The number is the year's invoice count plus one;
  nothing makes it atomic, so the model proves only that sequential
  numbering never repeats.
- **Empty invoices.** A payload with no lines is accepted, and the model
  allows an invoice without lines.
- **Zero-rate filter.** The voucher's filter `vatRate != BigDecimal.ZERO` is
  `BigDecimal.equals`, which compares scale too. A rate written `0.00` is
  therefore not ZERO and gets a 2700 posting.
- **Order of failures in `save`.** Pricing runs before `customerId!!`. A
  pricing failure therefore wins over a missing customer, and `Save` reports
  them in that order.
- **Partial pricing.** When pricing stops at an unknown VAT code, the lines
  before it have already been priced and counted.

**Expenses**
- **Status updates.** Applied to APPROVED, the status CASE is a no-op, not a
  rejection.
- **`receiptPath`.** `updateExpense` does not touch it.

**Products**
- **Variant updates.** `processVariantUpdates` deletes or restocks a row by
  identifier without checking that the row belongs to the product being
  updated. The model says so in `ApplyUpdate`.
- **Imported single-variant products.** A Famme product with a single variant
  still takes the upsert path of createVariants, because the import never
  sets a product SKU (`ImportCollapsesVariants`).

## Model

| member | source | states |
|---|---|---|
| InvoiceService.Invoice.FromPayload | invoice/src/main/kotlin/com/respiroc/invoice/application/InvoiceService.kt:96-103 | toInvoice copies issue date, due date, currency and customer id from the payload; the invoice has the given id and number, no lines and both totals ZERO |
| InvoiceService.ToInvoiceLine | invoice/src/main/kotlin/com/respiroc/invoice/application/InvoiceService.kt:105-114 | the line belongs to the given invoice and carries the payload's item name, quantity, unit price, discount and VAT code |
| InvoiceService.ToInvoiceLines | invoice/src/main/kotlin/com/respiroc/invoice/application/InvoiceService.kt:35-37 | one line per payload line, in order, each converted under the saved invoice's id |
| InvoiceService.PricedLineAmounts | invoice/src/main/kotlin/com/respiroc/invoice/application/InvoiceService.kt:151-162 | subTotal is unitPrice × quantity exactly (at unitPrice's scale); no discount gives a zero discount amount; otherwise the discount amount is subTotal × discount / 100 rounded half up at the product's scale; vatRate is the code's rate and vat is the service's amount on the discounted subtotal; totalAmount is exactly subTotal − discount + VAT; the line's inputs are unchanged |
| InvoiceService.DiscountRoundsAtProductScale | invoice/src/main/kotlin/com/respiroc/invoice/application/InvoiceService.kt:154 | the HALF_UP division keeps the scale of subTotal × discount: 0.05 at 10.00 % gives 0.0050, not 0.01 |
| BigDecimals.DivideHalfUp | invoice/src/main/kotlin/com/respiroc/invoice/application/InvoiceService.kt:154 | `divide(BigDecimal(100), HALF_UP)` keeps the dividend's scale and its unscaled value satisfies the half-up rounding obligations |
| BigDecimals.DivHalfUpRounds | invoice/src/main/kotlin/com/respiroc/invoice/application/InvoiceService.kt:154 | the integer quotient is within half a unit of the exact one, and a tie goes away from zero, for negative dividends too |
| BigDecimals.RoundsHalfUpUnique | invoice/src/main/kotlin/com/respiroc/invoice/application/InvoiceService.kt:154 | for the divisor 100, a quotient that rounds half up is the one the division computes |
| BigDecimals.SumAt | invoice/src/main/kotlin/com/respiroc/invoice/application/InvoiceService.kt:163-164 | accumulating with `+=` from ZERO is exact: the sum's value is the sum of the values |
| InvoiceService.PriceLine | invoice/src/main/kotlin/com/respiroc/invoice/application/InvoiceService.kt:151-162 | the loop body for a line whose code is known yields the priced line and its discounted subtotal |
| InvoiceService.PopulateInvoiceAmounts | invoice/src/main/kotlin/com/respiroc/invoice/application/InvoiceService.kt:147-166 | totals reset to ZERO, then lines priced and accumulated in order; with every VAT code known it passes, every line is priced and the totals are the sums of line totals and discounted subtotals; at the first unknown code it fails naming that code, the lines before it priced and counted and the rest untouched |
| InvoiceService.FirstUnresolvedSpec | invoice/src/main/kotlin/com/respiroc/invoice/application/InvoiceService.kt:156-157 | pricing stops at the first line whose VAT code the lookup does not find: all codes before it resolve and its own does not |
| InvoiceService.PricingStep | invoice/src/main/kotlin/com/respiroc/invoice/application/InvoiceService.kt:150-164 | one iteration replaces line i by its priced form, leaves the lines after it alone and grows both totals by that line's amounts |
| InvoiceService.PricingFailedOn | invoice/src/main/kotlin/com/respiroc/invoice/application/InvoiceService.kt:156-157 | a failed pricing means some line's VAT code does not resolve |
| InvoiceService.PricingPassed | invoice/src/main/kotlin/com/respiroc/invoice/application/InvoiceService.kt:147-165 | a passed pricing means every code resolved, every line is priced and the totals are the full sums |
| InvoiceService.PricedLinesAt | invoice/src/main/kotlin/com/respiroc/invoice/application/InvoiceService.kt:150-162 | line i of the priced invoice is line i priced with its own resolved code |
| InvoiceService.RepricingIsIdempotent | invoice/src/main/kotlin/com/respiroc/invoice/application/InvoiceService.kt:147-165 | pricing reads only a line's inputs, so pricing priced lines again gives the same lines (and so the same totals) |
| InvoiceService.PricedLinesWellPriced | invoice/src/main/kotlin/com/respiroc/invoice/application/InvoiceService.kt:162 | every priced line's total is its discounted subtotal plus its VAT |
| InvoiceService.InvoiceNumberRoundTrip | invoice/src/main/kotlin/com/respiroc/invoice/application/InvoiceService.kt:116-119 | the number reads back, split at its last dash, as the year's text and count + 1 |
| InvoiceService.InvoiceNumbersDistinct | invoice/src/main/kotlin/com/respiroc/invoice/application/InvoiceService.kt:116-119 | different (year, count) pairs give different invoice numbers |
| Text.ParseNatToString | invoice/src/main/kotlin/com/respiroc/invoice/application/InvoiceService.kt:118 | the decimal rendering of a count in the string template reads back as the count |
| Text.IntToStringInjective | invoice/src/main/kotlin/com/respiroc/invoice/application/InvoiceService.kt:118 | two years with the same rendering (minus sign included) are the same year |
| InvoiceService.CreateVoucher | invoice/src/main/kotlin/com/respiroc/invoice/application/InvoiceService.kt:45-93 | the postings built with `+=` in the loop are exactly the invoice voucher of the invoice's number, currency, totals and lines on the given date, described "Invoice number … to …" |
| InvoiceService.InvoiceVoucherLayout | invoice/src/main/kotlin/com/respiroc/invoice/application/InvoiceService.kt:48-86 | 2 + (lines with non-zero rate) postings; row 0 is 1500 for +total, row 1 is 3000 for −discounted subtotal, row k ≥ 2 is 2700 for −VAT of the (k−2)-th rated line with its VAT code; every posting has row number k, the invoice currency as currency and original currency, originalAmount = amount, the date and the description |
| InvoiceService.InvoicePostingAt | invoice/src/main/kotlin/com/respiroc/invoice/application/InvoiceService.kt:49-86 | posting k of the voucher, written out in full |
| InvoiceService.InvoicePostingAmounts | invoice/src/main/kotlin/com/respiroc/invoice/application/InvoiceService.kt:49-86 | the signed amounts in posting order are +total, −discounted subtotal, then −VAT of each rated line |
| InvoiceService.TotalsSplit | invoice/src/main/kotlin/com/respiroc/invoice/application/InvoiceService.kt:162-164 | for priced lines the accumulated total equals the accumulated discounted subtotal plus the lines' VAT |
| InvoiceService.VatSplit | invoice/src/main/kotlin/com/respiroc/invoice/application/InvoiceService.kt:71-73 | the VAT of all lines is the VAT of the lines the filter keeps plus that of the ZERO-rated lines it drops |
| InvoiceService.VoucherAmountsSum | invoice/src/main/kotlin/com/respiroc/invoice/application/InvoiceService.kt:48-86 | the voucher's amounts add up to exactly the VAT of the ZERO-rated lines |
| InvoiceService.InvoiceVoucherBalancesIff | invoice/src/main/kotlin/com/respiroc/invoice/application/InvoiceService.kt:71-86 | the voucher of priced lines balances if and only if the VAT of ZERO-rated lines sums to zero |
| InvoiceService.InvoiceVoucherBalances | invoice/src/main/kotlin/com/respiroc/invoice/application/InvoiceService.kt:49-86 | if every ZERO-rated line carries zero VAT, the postings sum to zero |
| InvoiceService.PricedLinesFacts | invoice/src/main/kotlin/com/respiroc/invoice/application/InvoiceService.kt:157-162 | priced lines are well priced, and with a VAT service that charges nothing at rate ZERO the ZERO-rated ones carry no VAT |
| InvoiceService.PricedInvoiceBalances | invoice/src/main/kotlin/com/respiroc/invoice/application/InvoiceService.kt:39-41 | pricing an invoice whose codes all resolve and building its voucher, with a VAT service that charges nothing at rate ZERO, gives postings that sum to zero |
| InvoiceService.NumberedInvoice | invoice/src/main/kotlin/com/respiroc/invoice/application/InvoiceService.kt:31-38 | a fresh invoice numbered for its issue year, with the payload's header and its lines converted under the saved id |
| InvoiceService.Save | invoice/src/main/kotlin/com/respiroc/invoice/application/InvoiceService.kt:30-43 | save succeeds exactly when every VAT code resolves and a customer id is present; then the returned invoice has the given id and the payload's issue date, due date, currency and customer id, is numbered, fully priced, totalled, its voucher is the invoice voucher for the customer's name, and that voucher balances when the VAT service charges nothing at rate ZERO |
| Expenses.ToCost | ledger/src/main/kotlin/com/respiroc/ledger/application/ExpenseService.kt:148-155 | each field of the cost is copied from the cost payload |
| Expenses.ToCosts | ledger/src/main/kotlin/com/respiroc/ledger/application/ExpenseService.kt:147-158 | one cost per payload, in payload order |
| Expenses.CopiedAmounts | ledger/src/main/kotlin/com/respiroc/ledger/application/ExpenseService.kt:160-161 | the copied costs have the payload's amounts, one for one and in order, so `costs.sumOf` and `payload.costs.sumOf` sum the same sequence |
| ExpenseService.CategoryAccount | ledger/src/main/kotlin/com/respiroc/ledger/application/ExpenseService.kt:200-208 | the table only ever yields one of its seven accounts |
| ExpenseService.CategoryTable | ledger/src/main/kotlin/com/respiroc/ledger/application/ExpenseService.kt:200-208 | Travel 7140, Meals & Entertainment 7350, Office Supplies 6560, Marketing 7320, Professional Services 6720, Utilities 6200, no category 7790 |
| ExpenseService.MapCategoryToAccount | ledger/src/main/kotlin/com/respiroc/ledger/application/ExpenseService.kt:198-211 | the result is a table account; it is 7790 or an account the chart holds; any other result is the table's account for the category's name |
| ExpenseService.UnknownCategoryBooksToDefault | ledger/src/main/kotlin/com/respiroc/ledger/application/ExpenseService.kt:199-208 | a missing category or a name outside the table books to 7790, whatever the chart holds |
| ExpenseService.KnownCategoryBooksToTable | ledger/src/main/kotlin/com/respiroc/ledger/application/ExpenseService.kt:209-210 | a named category whose account the chart holds books to that account |
| ExpenseService.ExpenseVoucher | ledger/src/main/kotlin/com/respiroc/ledger/application/ExpenseService.kt:166-196 | two postings on the expense date in NOK with originalAmount = amount and no VAT code: the expense account (7790 if null) for +amount at row 1 with the expense's description, 1920 for −amount at row 2 described "Payment: …"; the voucher is described "Expense: …" |
| ExpenseService.ExpenseVoucherBalances | ledger/src/main/kotlin/com/respiroc/ledger/application/ExpenseService.kt:170-193 | the expense voucher sums to zero for every amount and scale |
| ExpenseService.ExpenseService.CreateExpenseEntity | ledger/src/main/kotlin/com/respiroc/ledger/application/ExpenseService.kt:135-164 | a new unsaved expense of the tenant, status OPEN, header fields from the payload, account from the category mapping, costs copied in order, amount the sum of the payload's cost amounts, no attachments |
| ExpenseService.ExpenseService.CreateExpense | ledger/src/main/kotlin/com/respiroc/ledger/application/ExpenseService.kt:57-62 | the expense is saved under a fresh id beside the existing rows, OPEN, with every field createExpenseEntity sets: tenant, title, description, date, category, receipt path, creator, the mapped account (which the voucher debits), the copied costs and their summed amount, no attachments; its balanced voucher is handed on |
| ExpenseService.ExpenseService.UpdateExpense | ledger/src/main/kotlin/com/respiroc/ledger/application/ExpenseService.kt:64-99 | a missing id fails with "Expense not found" and changes nothing; otherwise only that row changes: header fields and account from the payload, costs exactly the payload's (old ones deleted), amount their sum; status, tenant, creator, receipt path and attachments stay |
| ExpenseService.ExpenseService.DeleteExpense | ledger/src/main/kotlin/com/respiroc/ledger/application/ExpenseService.kt:101-105 | a missing id fails with "Expense not found" and changes nothing; otherwise exactly that row is gone |
| ExpenseService.ExpenseService.AddAttachmentsToExpense | ledger/src/main/kotlin/com/respiroc/ledger/application/ExpenseService.kt:115-128 | a missing id fails with "Expense not found" and changes nothing; otherwise the expense keeps its attachments and gets one more per file, in order, and only that row changes |
| ExpenseService.Attachments | ledger/src/main/kotlin/com/respiroc/ledger/application/ExpenseService.kt:119-124 | one attachment per file, in order, holding that file's bytes |
| ExpenseRepository.ExpenseTable.FindById | ledger/src/main/kotlin/com/respiroc/ledger/application/ExpenseService.kt:65-66 | finds the row with that id exactly when there is one |
| ExpenseRepository.ExpenseTable.Save | ledger/src/main/kotlin/com/respiroc/ledger/application/ExpenseService.kt:94 | an unsaved row gets the next id, a saved one replaces its row; no other row changes |
| ExpenseRepository.ExpenseTable.Delete | ledger/src/main/kotlin/com/respiroc/ledger/application/ExpenseService.kt:104 | the row with that id is removed and nothing else |
| ExpenseRepository.ExpenseTable.DeleteCostsByExpenseId | ledger/src/main/kotlin/com/respiroc/ledger/domain/repository/ExpenseRepository.kt:64-66 | the expense keeps no cost; every other row stays |
| ExpenseRepository.NextStatus | ledger/src/main/kotlin/com/respiroc/ledger/domain/repository/ExpenseRepository.kt:69 | a status moves at most one step forward and never back, and stays put exactly at APPROVED |
| ExpenseRepository.StatusTransitions | ledger/src/main/kotlin/com/respiroc/ledger/domain/repository/ExpenseRepository.kt:69 | OPEN → DELIVERED, DELIVERED → APPROVED, APPROVED → APPROVED |
| ExpenseRepository.AdvanceRank | ledger/src/main/kotlin/com/respiroc/ledger/domain/repository/ExpenseRepository.kt:69 | n updates move a status min(n, steps left) steps along OPEN, DELIVERED, APPROVED |
| ExpenseRepository.OpenReachesApproved | ledger/src/main/kotlin/com/respiroc/ledger/domain/repository/ExpenseRepository.kt:69 | from OPEN, two or more updates give APPROVED |
| ExpenseRepository.ApprovedIsTerminal | ledger/src/main/kotlin/com/respiroc/ledger/domain/repository/ExpenseRepository.kt:69 | APPROVED is a fixpoint of any number of updates |
| ExpenseRepository.ExpenseTable.UpdateExpenseStatus | ledger/src/main/kotlin/com/respiroc/ledger/domain/repository/ExpenseRepository.kt:68-70 | the row with that id gets the next status and keeps every other field; every other row is unchanged and no row appears or disappears |
| ProductService.StandardColors | product/src/main/kotlin/com/respiroc/product/application/ProductService.kt:233-235 | seven distinct colours |
| ProductService.StandardSizes | product/src/main/kotlin/com/respiroc/product/application/ProductService.kt:237-239 | seven distinct sizes |
| ProductService.GetStandardProductOptions | product/src/main/kotlin/com/respiroc/product/application/ProductService.kt:299-310 | two options named "color" and "size", in that order |
| ProductService.OptionValues | product/src/main/kotlin/com/respiroc/product/application/ProductService.kt:214-228 | one value per name under the option, value i at position i with consecutive ids |
| ProductService.ProductService.CreateStandardProductOptionsWithValues | product/src/main/kotlin/com/respiroc/product/application/ProductService.kt:198-231 | appends "color" at position 0 and "size" at position 1 for the product, then the seven colours under the first and the seven sizes under the second, positions 0..6; the tables stay valid |
| ProductService.StandardOptionsAsOffered | product/src/main/kotlin/com/respiroc/product/application/ProductService.kt:198-239 | under each new option the stored values are exactly the values the options form offers for it, at their list positions |
| ProductService.TwoOptionsStored | product/src/main/kotlin/com/respiroc/product/application/ProductService.kt:210-230 | values saved for two new options after existing ones come back, per option id, as what was saved for it |
| VariantTables.FindVariant | product/src/main/kotlin/com/respiroc/product/application/ProductService.kt:176-178 | the first row of the product with exactly that option map, or none when no row has it |
| VariantTables.Insert | product/src/main/kotlin/com/respiroc/product/application/ProductService.kt:185-192 | a new row with the next id is appended and the counter moves on |
| VariantTables.UpsertEffect | product/src/main/kotlin/com/respiroc/product/application/ProductService.kt:176-193 | a match keeps row count, id, SKU and option map, adds the payload's stock (32-bit) and overwrites the price, and leaves every other row; no match appends the payload as a new row |
| VariantTables.UpsertAllKeepsKeysUnique | product/src/main/kotlin/com/respiroc/product/application/ProductService.kt:175-194 | no two rows of the product end up with the same option map |
| VariantTables.UpsertAllKeepsOtherProducts | product/src/main/kotlin/com/respiroc/product/application/ProductService.kt:175-194 | other products' rows keep their place and contents, and new rows are the product's |
| VariantTables.CollapsedRow | product/src/main/kotlin/com/respiroc/product/application/ProductService.kt:175-194 | starting without a row for an option map, there is one after the upserts exactly when a payload carries it, with the first such SKU, the last such price and the 32-bit sum of their stock |
| JvmInt.AddInt32 | product/src/main/kotlin/com/respiroc/product/application/ProductService.kt:181 | `stockQty +=` is the plain sum when it fits in 32 bits and is congruent to it modulo 2^32 always |
| JvmInt.WrapAddAssociates | product/src/main/kotlin/com/respiroc/product/application/ProductService.kt:181 | topping up a wrapped stock again is wrapping the plain running sum |
| ProductService.ProductService.CreateVariants | product/src/main/kotlin/com/respiroc/product/application/ProductService.kt:164-196 | the variant table becomes the createVariants result: one default variant, or the payloads upserted in order; the tables stay valid |
| ProductService.NewProductDefaultVariant | product/src/main/kotlin/com/respiroc/product/application/ProductService.kt:165-173 | a new product without variants but with a SKU has exactly one variant: that SKU, price and stock defaulting to 0, no options |
| ProductService.NewProductVariantsCollapse | product/src/main/kotlin/com/respiroc/product/application/ProductService.kt:174-194 | a new product's variants have unique option maps, and each option map is the collapsed row of its payloads |
| ProductService.ProductService.CreateProduct | product/src/main/kotlin/com/respiroc/product/application/ProductService.kt:35-46 | the product is saved under a fresh id with the request's name, description and flag; its "color" and "size" options are added under the next two option ids with the seven colours and seven sizes as values under the next fourteen value ids; its variants are CreateVariantsResult of the old table |
| VariantTables.IndexOfId | product/src/main/kotlin/com/respiroc/product/application/ProductService.kt:279 | findById: the position of the row with that id, or none |
| VariantTables.RemoveId | product/src/main/kotlin/com/respiroc/product/application/ProductService.kt:276 | deleteById leaves only rows of the table that do not have that id |
| VariantTables.RemoveIdAt | product/src/main/kotlin/com/respiroc/product/application/ProductService.kt:276 | with ids in order, deleteById cuts out exactly the row with that id and keeps the others in order (no row: no change) |
| VariantTables.DeleteUpdateEffect | product/src/main/kotlin/com/respiroc/product/application/ProductService.kt:275-277 | deleted with an id: no row has that id afterwards, the row that had it is cut out and the rest keep their order |
| VariantTables.StockUpdateEffect | product/src/main/kotlin/com/respiroc/product/application/ProductService.kt:278-284 | an id without deleted sets only that row's stock; an unknown id changes nothing |
| VariantTables.InsertUpdateEffect | product/src/main/kotlin/com/respiroc/product/application/ProductService.kt:285-294 | no id and not deleted appends a row of the product with the entry's SKU, price, stock and option map |
| VariantTables.DeletedWithoutIdIsIgnored | product/src/main/kotlin/com/respiroc/product/application/ProductService.kt:274-295 | deleted without an id falls through the `when` and changes nothing |
| VariantTables.ApplyUpdatesKeepsValid | product/src/main/kotlin/com/respiroc/product/application/ProductService.kt:272-297 | the update entries keep ids positive, increasing and below the counter |
| ProductService.ProductService.ProcessVariantUpdate | product/src/main/kotlin/com/respiroc/product/application/ProductService.kt:274-295 | one entry changes the variant table as ApplyUpdate says |
| ProductService.ProductService.ProcessVariantUpdates | product/src/main/kotlin/com/respiroc/product/application/ProductService.kt:272-297 | the entries are applied in order; the tables stay valid |
| ProductService.ProductService.ReplaceWithDefaultVariant | product/src/main/kotlin/com/respiroc/product/application/ProductService.kt:255-264 | the product's variants are deleted and one default variant is appended; the tables stay valid |
| ProductService.UpdateLeavesSingleVariant | product/src/main/kotlin/com/respiroc/product/application/ProductService.kt:255-264 | after the replace-all path the product has exactly one variant, the default one, and other products' variants are kept in order |
| ProductService.ProductService.UpdateProduct | product/src/main/kotlin/com/respiroc/product/application/ProductService.kt:246-270 | a missing id fails with "Product not found" and changes nothing; otherwise the product's name, description and flag are replaced and its variants replaced by the default one or updated entry by entry |
| ProductService.ProductService.DeleteProduct | product/src/main/kotlin/com/respiroc/product/application/ProductService.kt:312-316 | a missing id fails with "Product not found" and changes nothing; otherwise the product, its variants, its options and their values are gone and everything else stays in order |
| ProductSync.SyncBatch | product/src/main/kotlin/com/respiroc/product/application/ProductSyncService.kt:44 | `take(50)`: a prefix of the feed, of length 50 unless the feed is shorter, in which case it is the whole feed |
| ProductSync.SyncPayloads | product/src/main/kotlin/com/respiroc/product/application/ProductSyncService.kt:44-45 | at most 50 create requests, the i-th converted from the i-th product of the feed |
| ProductSync.StripTags | product/src/main/kotlin/com/respiroc/product/application/ProductSyncService.kt:84 | the regex replacement leaves no `<` followed later by `>` and never lengthens the text |
| ProductSync.StripTagsKeepsTagFree | product/src/main/kotlin/com/respiroc/product/application/ProductSyncService.kt:84 | text without tags is left as it is |
| ProductSync.StripTagsIdempotent | product/src/main/kotlin/com/respiroc/product/application/ProductSyncService.kt:84 | stripping twice is stripping once |
| ProductSync.StripTagsDropsLeadingTag | product/src/main/kotlin/com/respiroc/product/application/ProductSyncService.kt:84 | a leading `<…>` without `>` inside goes entirely and the rest is stripped |
| Text.Trim | product/src/main/kotlin/com/respiroc/product/application/ProductSyncService.kt:84 | `trim()` is a contiguous slice, only whitespace is cut from either end, and the result neither starts nor ends with whitespace |
| ProductSync.TrimKeepsTagFree | product/src/main/kotlin/com/respiroc/product/application/ProductSyncService.kt:84 | trimming cannot create a tag |
| ProductSync.StripHtml | product/src/main/kotlin/com/respiroc/product/application/ProductSyncService.kt:83-85 | null stays null; otherwise the result is the stripped text trimmed, and holds no tag |
| ProductSync.SizeOf | product/src/main/kotlin/com/respiroc/product/application/ProductSyncService.kt:61 | the size is option3 when present, otherwise option2 |
| ProductSync.OptionCombination | product/src/main/kotlin/com/respiroc/product/application/ProductSyncService.kt:68-71 | keys only among "color" and "size"; "color" present iff option1 is, mapped to it; "size" present iff the size is, mapped to it |
| ProductSync.ConvertVariant | product/src/main/kotlin/com/respiroc/product/application/ProductSyncService.kt:63-72 | SKU copied, price from the conversion, stock 1 if available else 0, never default, option map as above |
| ProductSync.ConvertProduct | product/src/main/kotlin/com/respiroc/product/application/ProductSyncService.kt:58-81 | name is the title, description the stripped body, one variant payload per Famme variant in order, has variants iff more than one, no product SKU, price or stock |
| ProductSync.ImportCollapsesVariants | product/src/main/kotlin/com/respiroc/product/application/ProductSyncService.kt:44-46 | an imported product always takes the upsert path of createVariants, so its variants with the same colour and size become one row |
| ExpenseDragDrop.FindSame | web-app/src/main/resources/static/assets/expenses/expense-drag-drop.js:39 | finds a selected file with the same name and size exactly when one exists |
| ExpenseDragDrop.AddAllKeepsSelection | web-app/src/main/resources/static/assets/expenses/expense-drag-drop.js:37-43 | the files already selected stay in front, in their order |
| ExpenseDragDrop.AddAllAppend | web-app/src/main/resources/static/assets/expenses/expense-drag-drop.js:37-43 | adding a batch is adding its first part and then its second, so new files come in input order |
| ExpenseDragDrop.AddAllCovers | web-app/src/main/resources/static/assets/expenses/expense-drag-drop.js:36-45 | after adding, every input file or one with its name and size is selected |
| ExpenseDragDrop.AddAllFrom | web-app/src/main/resources/static/assets/expenses/expense-drag-drop.js:37-43 | every selected file comes from the old selection or from the input |
| ExpenseDragDrop.AddAllKeepsNoDuplicates | web-app/src/main/resources/static/assets/expenses/expense-drag-drop.js:37-43 | a selection without two files of the same name and size stays so |
| ExpenseDragDrop.AddAllOfCovered | web-app/src/main/resources/static/assets/expenses/expense-drag-drop.js:39-42 | adding files each already selected changes nothing |
| ExpenseDragDrop.AddAllIdempotent | web-app/src/main/resources/static/assets/expenses/expense-drag-drop.js:36-45 | adding the same files twice gives the list adding them once gives |
| Seqs.Filter | web-app/src/main/resources/static/assets/expenses/expense-drag-drop.js:48 | `filter` keeps exactly the elements satisfying the predicate |
| Seqs.FilterAppend | web-app/src/main/resources/static/assets/expenses/expense-drag-drop.js:48 | `filter` keeps the relative order |
| ExpenseDragDrop.RemoveKeepsNoDuplicates | web-app/src/main/resources/static/assets/expenses/expense-drag-drop.js:47-50 | removal keeps a selection free of duplicates |
| ExpenseDragDrop.Label | web-app/src/main/resources/static/assets/expenses/expense-drag-drop.js:73-80 | "No files selected" for none, "1 file selected: {name}" for one, "{n} files selected: " and the names joined by ", " for more |
| ExpenseDragDrop.LabelOpensWithCount | web-app/src/main/resources/static/assets/expenses/expense-drag-drop.js:73-80 | the label's first word is "No" for no files and the count otherwise |
| ExpenseDragDrop.LabelDeterminesCount | web-app/src/main/resources/static/assets/expenses/expense-drag-drop.js:73-80 | two selections with the same label have the same number of files |
| ExpenseDragDrop.FilePicker.UpdateLabel | web-app/src/main/resources/static/assets/expenses/expense-drag-drop.js:69-81 | with a label element its text becomes the label of the selection; without one nothing happens |
| ExpenseDragDrop.FilePicker.UpdateFileInput | web-app/src/main/resources/static/assets/expenses/expense-drag-drop.js:57-67 | the file input holds the selection, then the label describes it |
| ExpenseDragDrop.FilePicker.AddFiles | web-app/src/main/resources/static/assets/expenses/expense-drag-drop.js:36-45 | each file not already selected by name and size is appended in order, then input and label are refreshed |
| ExpenseDragDrop.FilePicker.RemoveFile | web-app/src/main/resources/static/assets/expenses/expense-drag-drop.js:47-50 | every file with that name goes, whatever its size, the rest keep their order, then input and label are refreshed |
| ExpenseDragDrop.FilePicker.ClearSelectedFiles | web-app/src/main/resources/static/assets/expenses/expense-drag-drop.js:52-55 | the selection is empty, then input and label are refreshed |

## Left out

- **Persistence.** JPA, Spring Data queries, lazy loading and transactions
  are replaced by in-memory tables.
  - The repository's `save` is modelled only where a service relies on it:
    new identifiers, replacing a row, the cascade on delete.
  - The second `invoiceRepository.save` in `save` is not modelled, because
    it changes nothing the model observes.
- **VatService, VoucherService, AccountService, CustomerService.** Their code
  is not part of this model. They are function parameters, read-only data,
  or a voucher list the service appends to. Whether the voucher service
  itself rejects unbalanced vouchers is not modelled.
- **Invoice number race.** The count-then-add race in `getNextInvoiceNumber`
  is out of scope because the model is sequential. The per-year count is a
  parameter.
- **`LocalDate.now()`.** It is a date parameter.
- **`ProductSyncService.syncProducts` plumbing.** Left out because it is
  I/O:
  - the RestClient call;
  - the `@Scheduled` trigger;
  - the ThreadLocal tenant;
  - the `println`s;
  - the catch-all exception handler.
- **Famme price conversion.** `(price.toDouble() * 100).toInt()` is floating
  point, so it is the `priceCents` parameter.
- **Browser side of the picker.** The browser's File, DataTransfer and DOM
  objects are reduced to the selection, the input's file list and the
  label's text. The drag and drop event wiring around the functions is left
  out.
- **ExpenseStatus.** The enum's source is not part of the model. It is
  modelled as its three values, so the CASE's ELSE branch is the APPROVED
  case.
- **Entity definitions.** `Invoice.kt` and `InvoiceLine.kt` lack fields the
  service uses, so the model follows `InvoiceService.kt`.
- **`isDefault`.** The flag of a saved variant is taken as false. Its
  database default is not part of this model.
- **Web layer.** It is left out, along with:
  - the controllers;
  - the payload-to-DTO mappers (`toExpensePayload`);
  - the PDF generator;
  - the other page scripts;
  - the read-only listing queries (`getAll…`, `getInvoicesWithLines`,
    `findExpenseById…`, `getExistingSkus`).
- **Repository-backed identifiers.** The attachment count in
  `updateExpense`, and the identifiers of cost and attachment rows, are not
  modelled.
- **ExpenseService.ExpenseService.UpdateExpense.** It states the table as
  holding the new cost list in place of the old. In the source, the old
  costs are deleted and the new ones saved through a separate cost
  repository.
- **Negative scales.** `BigDecimals.Decimal` has a non-negative scale.
  `BigDecimal` allows negative scales, but every value this core builds has
  scale zero or more.
- **JvmInt.AddInt32.** Only the stock top-up of createVariants is checked for
  wrap-around. The payload's own Int fields are taken as already in range.
