# Ledger replay core of an inventory and supplier-finance app

This project models the core of a browser app for stock and supplier accounts. The app keeps an append-only
transaction log (receives, issues, transfers, returns, adjustments, butchery production) and a payment log.
Everything it shows comes from replaying those logs:

- `calculateStockLevels` rebuilds every branch's quantity and weighted average cost.
- `calculateSupplierFinancials` rebuilds every supplier's billed, paid and credited totals, its invoice
  buckets and its statement feed.

The screens around these replays decide which rows get logged:

- receiving, rejecting and cancelling a transfer;
- merging, editing and submitting the operations working lists;
- butchery production and its yield report;
- the supplier statement and payment entry;
- branch pricing, the sales list and the sales report.

The model replaces the global `state` object with an explicit snapshot (`AppState.Store`). Quantities and money
are `real`, dates are `int` timestamps in milliseconds, and loosely typed fields are datatypes: `Number` for
what `parseFloat` sees and `Flag` for the `true`/`"TRUE"` flags. Each submission is modelled as if the server
call succeeds, followed by its effect on local state. A `confirm()` answer, the clock and a generated id are
parameters.

The modules follow the source files:

| module | source |
|---|---|
| `Utils` | utils.js (`findByKey`, `userCan`, the truthy-flag coercion) |
| `Records` | the record shapes (transactions, payments, items, branches, suppliers) |
| `Sorting` | the date sorts of calculations.js, as a stable insertion sort, plus a filter |
| `Classifier` | calculations.js:24-30, which rows the stock replay takes |
| `StockReplay` | calculations.js:8-109 |
| `SupplierLedger` | calculations.js:114-198 |
| `AppState` | the parts of state.js the core reads and changes |
| `Transactions` | transactions.js |
| `Operations` | operations_extension.js |
| `Butchery` | butchery_extension.js |
| `Financials` | financials_extension.js |
| `Pricing` | price_generator.js |

Every `forEach` or `for` loop of the source that builds state is a method with invariants, proved against a recursive
specification function; the source's `filter`, `map` and `find` calls that only compute a value are functions. The
properties the source promises are proved about those functions as lemmas.

Two behaviours of the code are easy to miss:

- The supplier-ledger pass never looks at `Status`. A Cancelled or Rejected return still credits its
  supplier (`SupplierLedger.CancelledReturnStillCredits`), even though the stock replay skips it.
- A return submission and an adjustment submission do not add their rows to the local log. Only the
  server gets them; locally the working list is just cleared.

## Model

| member | source | states |
|---|---|---|
| Utils.IsTrueExactly | utils.js:22-26 | the flag coercion accepts exactly the boolean `true` and any text spelling "true" in any letter case |
| Utils.FindByKey | utils.js:61-64 | null for a non-array; otherwise the first non-empty element whose key equals the value, with no earlier match, or not-found when nothing matches |
| Utils.Find | utils.js:61-64 | a master-data lookup: the found entry is in the list with the key, is the first such entry, and "none" holds exactly when no entry has the key |
| Utils.UserCan | utils.js:22-26 | false without a user or a permissions object; otherwise true exactly when the permission is present and affirmed |
| Records.ParseKindName | calculations.js:77-102 | every listed movement kind is read back from its own `type` name, and a recognised name is that kind's name |
| Classifier.Included | calculations.js:24-30 | a row is replayed iff it is not an unapproved receive, not soft-deleted, and not Rejected or Cancelled |
| Sorting.SortBy | calculations.js:17 | the sorted copy is a permutation of the log |
| Sorting.SortBySorted | calculations.js:17 | the copy is in ascending date order |
| Sorting.FilterSortBy | calculations.js:17 | filtering before or after the sort gives the same rows, so excluded rows never disturb the order of the others |
| Sorting.SortByAppend | calculations.js:17 | a date-ordered block whose rows are no earlier than any row before it stays, unchanged, at the end of the sorted copy |
| StockReplay.CalculateStockLevels | calculations.js:8-109 | the loop over the sorted copy returns the replay of the log, with one entry per known branch |
| StockReplay.SeedStock | calculations.js:12-14 | the seeding loop gives every known branch an empty table and records no transfer cost |
| StockReplay.ReplayRow | calculations.js:22-106 | one pass of the replay loop turns the stock and cost tables into the specification step for that row |
| StockReplay.ApplyUpdate | calculations.js:35-72 | the in-place update of the stock and cost tables equals the `processStockUpdate` step |
| StockReplay.Route | calculations.js:77-102 | which branch each kind moves, with the sign of the change and the cost it brings; unlisted kinds are not routed |
| StockReplay.EveryBranchSeeded | calculations.js:12-14 | the result has exactly the known branches as keys |
| StockReplay.RunKeepsBranches | calculations.js:12-14 | the replay never adds or drops a branch |
| StockReplay.SkippedRowChangesNothing | calculations.js:24-33 | an excluded row, or one for an unknown item, changes nothing |
| StockReplay.UnseededBranchChangesNothing | calculations.js:36 | an update aimed at an empty or unseeded branch changes nothing |
| StockReplay.RunAppend | calculations.js:22-106 | replaying two logs in turn is replaying their concatenation |
| StockReplay.RunIgnoresExcluded | calculations.js:24-30 | replaying only the included rows gives the same state |
| StockReplay.ExcludedRowsIgnored | calculations.js:17-30 | two logs with the same included rows in the same order give the same stock |
| StockReplay.IncreaseRule | calculations.js:39-65 | an increase adds the quantity, keeps value on hand equal to old value plus q*c when the new quantity is positive (the old average otherwise), records the new average, and touches no other position |
| StockReplay.DecreaseRule | calculations.js:67-70 | a decrease or zero change moves the quantity by exactly the signed amount, keeps the average and the recorded costs, and touches nothing else |
| StockReplay.NoFloor | calculations.js:67-70 | any issue moves the quantity down by exactly its amount, with no floor: issuing more than is on hand leaves the position negative, and issuing q from an empty position leaves -q |
| StockReplay.Dispatch | calculations.js:77-102 | an included row of a known item is one update at its target branch: minus the quantity for the decrease kinds, plus for the increase kinds, at the row's cost or, for `transfer_in`, the sender's |
| StockReplay.StepFrame | calculations.js:77-102 | a row moves at most the position of its item at its target branch |
| StockReplay.TransferOutLeavesDestination | calculations.js:81-86 | an in-transit `transfer_out` leaves the destination branch unchanged |
| StockReplay.UpdatesCommute | calculations.js:35-72 | updates of two different (branch, item) positions give the same state in either order |
| StockReplay.StepsCommute | calculations.js:22-106 | two rows on different positions, neither a `transfer_in` reading the other's position, replay to the same state in either order |
| StockReplay.SwapIndependent | calculations.js:22-106 | swapping two such adjacent rows anywhere in a log leaves the replay unchanged |
| StockReplay.TransferOrderMatters | calculations.js:93-96 | a receive at A and a `transfer_in` from A to B move different positions yet do not commute: B averages 20 with the receive first and 10 with it second |
| StockReplay.ReplayCostsAgree | calculations.js:64-65 | throughout the replay, a recorded transfer cost equals the current average cost of that position |
| StockReplay.TransferInCostIsSenderAverage | calculations.js:93-96 | a `transfer_in` brings the sender's current average when one was recorded and is non-zero, otherwise the master cost |
| StockReplay.TransferCarriesCost | calculations.js:93-96 | a transfer into an empty position gives it the sender's average cost, not the master cost |
| StockReplay.TwoIncreases | calculations.js:45-65 | two increases into an empty position give the quantity-weighted mean cost |
| StockReplay.ScenarioA | calculations.js:8-109 | receive 100 at 10, issue 40 and receive 50 at 16, logged out of order, leave 110 on hand at 1400/110 |
| SupplierLedger.CloseInvoice | calculations.js:185-194 | an invoice's balance is total minus paid; it is Paid iff under 0.01 away, else Partial iff something is paid, else Unpaid |
| SupplierLedger.PostBill | calculations.js:131-153 | the bill pass's in-place update for one row equals the specification step |
| SupplierLedger.PostPayment | calculations.js:156-178 | the payment pass's in-place update for one payment equals the specification step |
| SupplierLedger.CalculateSupplierFinancials | calculations.js:114-198 | the method returns the specification's summary, keyed by exactly the known suppliers |
| SupplierLedger.SeedLedger | calculations.js:118-129 | the seeding loop opens an empty account for each known supplier |
| SupplierLedger.PostBills | calculations.js:132-153 | the bill loop leaves the accounts as the specification's bill pass over the whole log |
| SupplierLedger.PostPayments | calculations.js:156-178 | the payment loop leaves the accounts as the specification's payment pass over the whole payment log |
| SupplierLedger.CloseAll | calculations.js:181-195 | the summary loop closes every account, and only those |
| SupplierLedger.BillsOnAccount | calculations.js:132-153 | the bill pass adds exactly the approved, undeleted, costed receives to billed and the undeleted, costed returns to credited, leaves paid alone, and appends to the feed exactly one debit per such receive and one credit per such return, in log order |
| SupplierLedger.BillsOnInvoice | calculations.js:140-146 | each invoice bucket totals the receives billed to that number ("Unknown" when none is given) |
| SupplierLedger.BillsInvoiceAbsent | calculations.js:140-146 | a bucket the bill pass opens starts with nothing paid |
| SupplierLedger.PaymentsOnAccount | calculations.js:156-178 | opening balances add to billed and give no feed row; other payments add to paid, and the feed gains exactly one credit per such payment, in log order |
| SupplierLedger.PayRowOnInvoices | calculations.js:160-176 | a payment reaches only an existing bucket of its invoice; an opening balance replaces its bucket with a fresh one |
| SupplierLedger.SupplierTotals | calculations.js:114-198 | billed, paid and credited are these sums; balance is billed minus paid minus credited; the feed is exactly the supplier's bill and credit rows and its non-opening payment rows (as a multiset, and as their date-sorted copy), date-sorted, and nets to the balance less the opening balances |
| SupplierLedger.NetSorted | calculations.js:194 | sorting the feed keeps its net |
| SupplierLedger.EverySupplierSeeded | calculations.js:117-128 | every known supplier has an account and nothing else does |
| SupplierLedger.MissingInvoiceNumber | calculations.js:140 | a receive without an invoice number is billed to "Unknown" |
| SupplierLedger.CancelledReturnStillCredits | calculations.js:135-153 | a Cancelled return is excluded from the stock replay yet still credits its supplier |
| SupplierLedger.ScenarioB | calculations.js:114-198 | billed 1000 on INV1 and paid 400 leaves INV1 Partial with 600 open |
| SupplierLedger.ScenarioC | calculations.js:160-168 | an opening balance of 500 bills 500 and seeds its invoice with nothing paid |
| AppState.Store.constructor | state.js:3-30 | a fresh snapshot holds the given master data and logs and four empty working lists |
| AppState.Store.SetList | state.js:50-52 | replacing one working list leaves the other three and both logs alone |
| Transactions.OutRows | transactions.js:100 | the batch's `transfer_out` rows, which are empty iff the log has none |
| Transactions.Restamp | transactions.js:117-119 | every row of the batch gets the status and every other row is kept |
| Transactions.RestampLog | transactions.js:117-119 | the in-place status rewrite equals the restamped log |
| Transactions.Arrivals | transactions.js:121-133 | one `transfer_in` per out row, with its item and quantity, the first row's branches, the batch id, the receipt time and Completed |
| Transactions.AppendArrivals | transactions.js:121-133 | the push loop appends exactly the arrivals |
| Transactions.ProcessTransferAction | transactions.js:99-144 | no-op without out rows; otherwise the batch is restamped Completed or Rejected and, when received, the arrivals are appended |
| Transactions.CancelTransfer | transactions.js:146-161 | a confirmed cancel marks the batch Cancelled and appends nothing |
| Transactions.RestampHides | transactions.js:117-119 | after a reject or cancel the classifier sees exactly the rows of the log without the batch |
| Transactions.RejectedTransferNeverSent | transactions.js:117-119 | a rejected or cancelled transfer leaves the replayed stock as if it had never been sent |
| Transactions.ArrivalCreditsDestination | transactions.js:123-133 | each arrival is replayed and credits the batch's destination |
| Transactions.ReceivedTransferReplaysLast | transactions.js:121-133 | arrivals dated no earlier than the log replay after it, in their own order |
| Operations.AdjustmentLine | operations_extension.js:588-591 | no line iff the count is within 0.001 of the system quantity; otherwise the absolute difference, `adjustment_in` iff the difference is positive |
| Operations.AdjustmentLines | operations_extension.js:587-592 | only lines at or above the tolerance, each for a listed item, and none at all iff every count matches |
| Operations.AdjustmentMatchesCount | operations_extension.js:589-591 | for an item counted once, the signed sum of its lines is physical minus system, or 0 within the tolerance |
| Operations.AdjustmentReachesCount | operations_extension.js:589-591 | replaying an adjustment line brings the system quantity to the count |
| Operations.ContextList | operations_extension.js:260-267 | only the four named contexts select a list |
| Operations.MergeKeepsRows | operations_extension.js:269-274 | the merge keeps every existing row as it was, in front |
| Operations.MergeAddsNew | operations_extension.js:269-274 | every added row is a selected, known item not already listed, with no quantity and the item's cost |
| Operations.MergeCovers | operations_extension.js:269-274 | every selected known item ends up listed |
| Operations.MergeKeepsDistinct | operations_extension.js:269-274 | a list without repeated item codes keeps that property |
| Operations.ConfirmSelection | operations_extension.js:255-277 | an unknown context changes no list; otherwise only the chosen list changes, to the merge |
| Operations.Edited | operations_extension.js:281-289 | only the edited field of the edited row changes, to the parsed number or 0 |
| Operations.HandleInput | operations_extension.js:281-289 | the store's list becomes the edited list; nothing else changes |
| Operations.Removed | operations_extension.js:297-301 | exactly the row at the index is removed (the multiset loses that row); an out-of-range index removes nothing |
| Operations.HandleRemove | operations_extension.js:297-301 | the store's list becomes the list without that row; nothing else changes |
| Operations.SentRows | operations_extension.js:548-554 | one In Transit `transfer_out` per line, with the parsed quantity |
| Operations.SubmitTransfer | operations_extension.js:541-560 | refused without both branches, with equal branches or with an empty list; otherwise the rows are logged and the list is cleared |
| Operations.SentRowDebitsSource | operations_extension.js:554 | a logged transfer row is replayed, debits the sending branch and leaves the destination alone |
| Operations.SubmitReturn | operations_extension.js:562-579 | refused without supplier, branch or lines; otherwise only the list is cleared, since the local log is not changed |
| Operations.SubmitAdjustment | operations_extension.js:581-603 | refused without branch, reference or lines; "no changes" iff no line clears the tolerance; otherwise it submits the derived lines and clears the list |
| Butchery.ButcheryForm.ChooseParent | butchery_extension.js:253-258 | choosing a parent clears the cut list |
| Butchery.ButcheryForm.AddCut | butchery_extension.js:260-264 | a cut already listed is not added again; a new one is appended with quantity 0 |
| Butchery.ButcheryForm.RemoveCut | butchery_extension.js:171-175 | exactly the cut at the index is removed |
| Butchery.ButcheryForm.SetCutQuantity | butchery_extension.js:178-181 | only the edited cut's quantity changes, to the parsed number or 0 |
| Butchery.YieldPct | butchery_extension.js:290 | the yield is output/input*100 for a positive input, otherwise 0 |
| Butchery.YieldBounds | butchery_extension.js:290 | the yield is 100 iff output equals input, and lies in [0, 100] when the output does not exceed the input |
| Butchery.CutRows | butchery_extension.js:333-364 | one `production_in` row per cut |
| Butchery.SubmitProduction | butchery_extension.js:299-372 | the outcome is the specification's; a production appends its rows and clears the cuts, anything else changes nothing |
| Butchery.Decide | butchery_extension.js:306-364 | the field, stock and weight checks and the rows they log give the specification's outcome for the replayed stock |
| Butchery.SumOutput | butchery_extension.js:321 | the output weight is the sum of the cut quantities |
| Butchery.BuildRows | butchery_extension.js:359-364 | the rows pushed are the parent row followed by one row per cut, in list order |
| Butchery.ProducedWithinStock | butchery_extension.js:312-330 | a produced batch never takes more than the replayed stock and reconciles to the cut weights within 0.001 |
| Butchery.ProductionAccepted | butchery_extension.js:306-330 | with all fields and enough stock: within the tolerance it is produced as entered; an excess is produced iff confirmed; a shortfall is refused |
| Butchery.ProductionRows | butchery_extension.js:333-364 | one `production_out` of the parent quantity, then one `production_in` per cut, all sharing the batch, the branch and the parent's average cost, approved, `Completed` and so counted by the replay |
| Butchery.ParentRowReplays | butchery_extension.js:359-361 | the parent row is replayed as a debit of the parent quantity at the branch |
| Butchery.CutRowReplays | butchery_extension.js:362-364 | each cut row is replayed as a credit of its quantity at the branch, at the parent's average cost |
| Butchery.DistinctCutRowsIndependent | butchery_extension.js:362-364 | with no item listed twice, the cut rows are pairwise independent, so their order does not matter to the replay |
| Butchery.GroupBatches | butchery_extension.js:384-389 | the grouping loop builds the specification's map of batches |
| Butchery.GroupDomain | butchery_extension.js:384-389 | a batch exists iff some production row carries its id |
| Butchery.GroupDate | butchery_extension.js:387 | a batch is dated by its first row |
| Butchery.GroupChildren | butchery_extension.js:389 | a batch's children are exactly its `production_in` rows, in log order |
| Butchery.GroupParent | butchery_extension.js:388 | a batch's parent is its last `production_out` row, and none iff it has none |
| Butchery.Reported | butchery_extension.js:393 | the report keeps exactly the batches with a parent |
| Butchery.ReportedBatches | butchery_extension.js:384-393 | a batch is reported iff the log has a `production_out` with its id |
| Financials.Earlier | financials_extension.js:294-296 | only events dated before the start count toward the opening balance |
| Financials.Window | financials_extension.js:300-306 | only events in the window are listed |
| Financials.EarlierHasAll | financials_extension.js:296 | every event dated before the start counts toward the opening balance |
| Financials.WindowHasAll | financials_extension.js:300-306 | every event in the window is listed |
| Financials.OpeningBalanceOf | financials_extension.js:294-296 | the opening loop sums debit minus credit over the events before the start |
| Financials.ListRows | financials_extension.js:300-306 | the listing loop builds the rows and ends at the base plus the net of the window |
| Financials.RenderStatement | financials_extension.js:279-309 | no statement for an unknown supplier; otherwise the statement of its feed |
| Financials.BuildStatement | financials_extension.js:289-309 | the opening balance is shown only with a start date, and the listing starts from it (or from 0) |
| Financials.RowsRunning | financials_extension.js:300-306 | row k lists the k-th event of the window, with the base plus the net of the window up to it |
| Financials.ClosingIsLastRunning | financials_extension.js:309 | the closing balance is the last row's running balance, or the opening when nothing is listed |
| Financials.OpeningPlusWindow | financials_extension.js:293-306 | the opening balance plus an open-ended window nets to the whole feed |
| Financials.UnboundedListsAll | financials_extension.js:300-306 | without dates every event is listed |
| Financials.ClosingWithoutEnd | financials_extension.js:289-309 | without dates the closing balance is billed minus paid minus credited, less the opening-balance payments |
| Financials.PaymentLines | financials_extension.js:255-259 | only positive amounts give lines, all for the supplier and method, and none iff no amount is positive |
| Financials.BuildLines | financials_extension.js:255-259 | the input loop builds exactly those lines |
| Financials.SumAmounts | financials_extension.js:263 | the total is the sum of the line amounts |
| Financials.SubmitPayment | financials_extension.js:249-276 | nothing happens without a line; otherwise the lines are appended to the payment log and their total is returned |
| Financials.LinesArePositiveInputs | financials_extension.js:255-259 | the lines are the positive inputs, in order |
| Financials.TotalPositive | financials_extension.js:261-263 | a submitted total is positive |
| Financials.LinesSums | financials_extension.js:255-259 | a submission pays its supplier by its total, or bills it by its total as an opening balance |
| Financials.PaymentSettles | financials_extension.js:270-272 | afterwards paid grows and balance drops by the total; an opening balance raises billed and leaves paid alone |
| Financials.UnpaidInvoices | financials_extension.js:211-213 | the picker lists exactly the known supplier's invoices whose status is not Paid |
| Financials.UnpaidMeansOutstanding | financials_extension.js:211-213 | every listed invoice is at least 0.01 away from settled |
| Pricing.CategoryColumn | price_generator.js:325-327 | the column is B iff the category is "PriceB" and C iff it is "PriceC", otherwise A (including a missing category) |
| Pricing.GetPriceForBranch | price_generator.js:322-329 | 0 for an unknown branch; otherwise the item's price in the branch's column, or 0 when it does not parse |
| Pricing.PriceByCategory | price_generator.js:322-329 | a known branch is priced from PriceB, PriceC or else PriceA, by its category |
| Pricing.SalesForm.AddItemToList | price_generator.js:492-502 | appends one line with the item's code, the quantity, the price and the parsed master cost |
| Pricing.BatchByBranch | price_generator.js:558-562 | the batching loop builds the specification's batches |
| Pricing.BatchesDistinct | price_generator.js:558-562 | no branch has two batches |
| Pricing.BatchesCover | price_generator.js:558-562 | a branch has a batch iff some line is for it |
| Pricing.BatchContents | price_generator.js:558-562 | each batch holds exactly its branch's lines, in list order |
| Pricing.BatchRows | price_generator.js:589-599 | one approved, Completed `issue` row per line of the batch |
| Pricing.AppendSaleRows | price_generator.js:567-599 | the batch loop appends every batch's rows, batch after batch |
| Pricing.SubmitSales | price_generator.js:544-604 | refused without both dates or without lines; otherwise the rows of every batch are logged and the list is cleared |
| Pricing.ReportData | price_generator.js:705-713 | a row is reported iff it is in the log and passes the sale, date, branch and item tests |
| Pricing.ReportedExactly | price_generator.js:705-713 | with both dates given, a row is reported iff it is a sale dated from the start to the end of the end day, of a selected branch and item when those selections are non-empty |
| Pricing.SubmittedSaleReported | price_generator.js:567-599 | a submitted line is reported on its period's end day for its branch and item |
| Pricing.SaleRowDebitsBranch | price_generator.js:589-599 | a logged sale is replayed as an issue that debits its branch by the line's quantity |
| Pricing.ImportPrice | price_generator.js:758-766 | the sheet's price when positive, else the branch-category price |
| Pricing.RowLines | price_generator.js:760-766 | only branch columns with a positive quantity give lines, each priced by the import rule |
| Pricing.FoundCount | price_generator.js:757-767 | the count of rows naming a known item, 0 iff no row does |
| Pricing.ImportRow | price_generator.js:760-766 | the column loop builds exactly the row's lines |
| Pricing.ImportOne | price_generator.js:756-772 | a row counts as found iff its code names a known item, and only then gives its branch-column lines |
| Pricing.ImportRows | price_generator.js:754-769 | the row loop builds all the lines and counts the known rows |
| Pricing.ImportSheet | price_generator.js:740-774 | an empty sheet adds nothing; otherwise the sheet's lines are appended to the sales list |
| Pricing.ImportedLinesValid | price_generator.js:750-769 | every imported line is for a branch column, has a positive quantity, and is priced manually or from its branch |

## Findings

| source | as written | input that shows it | evidently intended | confidence | as-written member | corrected member |
|---|---|---|---|---|---|---|
| calculations.js:93-96 | a `transfer_in` takes the sender's recorded average at the time it is replayed, so its cost depends on rows at another position; rows on different (branch, item) positions therefore do not always replay the same in either order | item X with master cost 10, branches A and B; a receive of 1 at 20 into A and a `transfer_in` of 1 from A to B: B averages 20 with the receive first and 10 with it second | the order of rows on different positions does not matter | not executed | StockReplay.TransferOrderMatters | StockReplay.StepsCommute |

The model keeps the source's `transfer_in` rule. The order-independence it does have is `StockReplay.StepsCommute` and `StockReplay.SwapIndependent`: two rows commute when they move different positions and neither is a `transfer_in` that reads the other's position. The replay sorts stably by date, so rows with equal dates are taken in log order.

## Left out

- DOM rendering, tables, toasts, modals, printing and the print-voucher and document generators: presentation only.
- `postData` and the network: every submission is modelled as succeeding. A failed call would leave the local state unchanged.
- The `try/catch` around each replayed row (calculations.js:103-105): with total `real` arithmetic and `int` dates nothing can throw.
- JavaScript `Date` parsing, time zones and `setHours`: dates are timestamps, and the end of a day is the start plus 86399000 ms. An invalid date string is not modelled, except in the sales report, where an unusable date field is `None` and bounds nothing.
- Letter case: `toUpperCase` is modelled on ASCII letters only.
- Floating-point rounding and `toFixed`: amounts are exact reals, and the 0.01 and 0.001 tolerances are real comparisons.
- `findByKey` compares `String(el[key])`, and a key that is literally the text "undefined" would match a missing field. Keys are plain strings here.
- `t.batchId.startsWith` throws on a row without a `batchId`. Batch ids are strings here, and an absent one is "".
- Display names (`itemName`, `supplierName`, `branchName`): nothing in the core depends on them.
- StockReplay.TransferInCost: a master cost that does not parse is read as 0, where the source falls back to the raw `item.cost` (NaN).
- Butchery report: the by-item summary, the search box and the report's yield for non-numeric quantities are presentation queries and are not modelled.
- Butchery.Reported: the report's sort of batches by date, newest first (butchery_extension.js:393), is display only; the model returns the reported batches as a map keyed by batch id and does not model that order.
- Sales report: the sort by date and the quantity and revenue totals are display only.
- The multi-branch sales modal and the record-context branch picker of price_generator.js: they are screens outside the replay and the operations modelled here.
- Pricing.BatchByBranch: batches come in order of first appearance. `Object.entries` puts integer-like keys (a branch code such as "12") first, and that ordering is not modelled.
- Pricing.SubmitSales: one clock reading stamps every batch id, where the source reads `Date.now()` once per batch. The ids still differ by branch code. The `ref` and `notes` fields go to the server only. The local log rows also carry the period's `StartDate` and `EndDate`, which only the sales report's period column displays; the model's `Tx` drops them as display-only.
- Pricing.ParseCell: a sheet cell holding numeric text is read as not parsing, and an item code written as a number is not matched. Only number cells count.
- Financials.SubmitPayment: every line of one submission shares one payment id and one date, where the source reads the clock once per line.
- Receive submission, purchase orders and the receive screen: operations_extension.js handles them, but they are screens outside the replay and the operations modelled here.
- The return and adjustment payloads are sent without touching the local log (the source's behaviour), so the model logs nothing for them.
- Generated ids (`generateId`, `Date.now()`) and `confirm()` answers are parameters.
- `Object.values` order of the invoice picker: the model returns a set.
