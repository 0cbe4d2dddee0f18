# Order-to-cash kernel: a verified model

A Dafny model of the order-to-cash path of the ERP: sales orders, stock, the posting ledger, receivables, the event
bus that joins them, and the outbox replay. It proves invariants over every run of services, and over every interleaving
of transactions.

`dafny verify dfyconfig.toml` checks the whole project.

## How it is built

* **Tables as values, services as functions on them.** One company's tables are a value (`Ledger.Books`,
  `Inventory.Stock`, `Receivables.Ar`, the order map, the outbox; together `Kernel.Tables`). A service call is a function
  to an `Outcome`: the new tables, or the exception. The laws are lemmas about these functions.
* **The services themselves are classes.** `LedgerService`, `InventoryService`, `ReceivablesService`, `SalesService`,
  `Company.Services`, `OutboxReplay` and `LoginRateLimiter` update their fields step by step, with the loops, savepoints
  and rollbacks of the source. Each method is proved to reach exactly the state its function prescribes. A service that
  owns its transaction or savepoint leaves the state untouched when it fails; `PostJournalEntry`, `ApplyStockMove`,
  `DispatchEvent` and `PublishEvent` run inside their caller's transaction, say what a failure leaves behind, and their
  callers roll it back.
* **The run theorems** are in `Kernel` (`RunKeeps`: one invariant kept by all nineteen kinds of service call),
  `Reachable` (what the invariant means to the business), `History` (what no run can take back) and `Documents` (which
  rows of outbox, journal and subledger belong together).
* **What each service does** is said once more without the functions of the model, in `OrderEffects`,
  `ReceivableEffects` and `LedgerEffects`: for which inputs a call succeeds, how it is refused, and exactly which rows it
  writes and which accounts it moves, from sums over the order's lines (`OrderSums`) and literal account codes.
* **The interleaving theorems** are in `StockProtocol`, `BalanceProtocol`, `NumberingProtocol`, `CreditProtocol` and
  `LockOrder`. Each is a step machine over unboundedly many transactions with uncommitted writes, locks held to the end
  of the transaction, savepoints, and reads of the last committed rows. The `Serial` modules tie the step machines back
  to the services: whatever a service call does to the tables, some schedule of the protocol does too.
* **Two side cores**: the login limiter (`RateLimiter`) and the JSON nesting scan (`JsonNesting`).

Amounts and quantities are integers in units of 10^-6 ("micro"), products of two of them in units of 10^-12 ("pico"); the
two roundings (half-even in Python, half-away-from-zero in the NUMERIC column) are explicit in `Decimals`. Ids are
naturals, which keeps the order of UUIDs. Dates are ordinal days with their year and month.

| file | part of the source |
|---|---|
| `Common.dfy`, `Sums.dfy`, `Decimals.dfy` | shared vocabulary, table sums, rounding |
| `Ledger.dfy`, `Posting.dfy` | journal, periods, reversals, trial balance; the posting handler |
| `Inventory.dfy` | stock moves, summary, shipment handler, rebuild |
| `Receivables.dfy`, `Fingerprint.dfy`, `Aging.dfy` | invoices, payments, allocation commands, rebuild; fingerprint; aging report |
| `Sales.dfy`, `OrderSums.dfy`, `Credit.dfy` | orders; what their lines add up to; exposure and the credit check |
| `Kernel.dfy`, `Reachable.dfy`, `History.dfy`, `Documents.dfy`, `Company.dfy` | all services over one company's tables; consequences; the services as classes |
| `OrderEffects.dfy`, `ReceivableEffects.dfy`, `LedgerEffects.dfy` | each service's success, refusals and effect; what the accounts show |
| `Walkthrough.dfy` | one order from draft to paid, over a price rise and onto its credit limit; its shipment delivered again |
| `Replay.dfy` | outbox replay over all companies |
| `StockProtocol.dfy`, `BalanceProtocol.dfy`, `NumberingProtocol.dfy`, `CreditProtocol.dfy`, `LockOrder.dfy` | concurrency |
| `Schedules.dfy`, `SerialStock.dfy`, `SerialBalance.dfy`, `SerialNumbering.dfy`, `SerialCredit.dfy` | the services as runs of the step machines |
| `RateLimiter.dfy`, `JsonNesting.dfy` | login limiter, JSON nesting scan |

## Where the code and its documentation part ways

The model follows the code.

* Publishing never stamps `dispatched_at` (`app/core/events.py:271-277`), so a drain revisits events that were applied
  when they were published. `Replay.RecordedReplayIsIdentity` says why that is harmless.
* A redelivered shipment need not be a quiet no-op: the sufficiency check runs before the unique index
  (`app/modules/inventory/service.py:191-194`), and the posting handler resolves accounts and period before its insert.
  Nothing ever changes, but the redelivery returns normally iff the first product, in id order, still has the shipped
  quantity on hand and the books would still take the entry (`Inventory.FullRedeliverySkipsIff`,
  `Posting.DuplicateSkipsIff`, `Reachable.RedeliversIff`). `Walkthrough.RedeliveryMayAbort` redelivers one shipment in
  three reachable states: as shipped it aborts, restocked it is skipped, drawn down by one it aborts again.
* Inline allocation locks invoices after the ledger counter, `void_invoice` the other way round, so the global lock order
  does not cover both. An inline receipt and another service can deadlock iff the other voids one of the receipt's
  invoices under the same ledger counter (`LockOrder.InlinePairDeadlocksIff`); any set of services without inline
  receipts, or without invoice voids, never deadlocks (`LockOrder.ServicesNeverDeadlock`).
* An order's stored total is rounded once and its lines one by one, so the total need not be the sum of the stored lines:
  two lines of half a unit are stored as 1 and 1 under a total of 1 (`Sales.StoredTotalsMayDiffer`). The two agree iff
  the roundings of the lines add up to within half a unit (`Sales.StoredTotalAddsUpIff`), which lines on the grid always
  do (`Sales.GridLinesAddUp`).
* A positive cost total of at most half a stored unit rounds to zero, and the shipment is refused by line validation
  rather than shipped without an entry (`Posting.CostPostingTrichotomy`).

## Model

| member | source | states |
|---|---|---|
| Decimals.HalfEvenIsNearestEven | app/modules/ledger/schemas.py:78-81 | rounding a money field yields the nearest 6-decimal amount, the even one on a tie, and nothing else |
| Decimals.ColumnRoundingKeepsGridBounds | app/plugins/credit_limit.py:119-133 | coercing an amount into NUMERIC(20,6) cannot carry it across a limit that lies on the 6-decimal grid |
| Ledger.SwappedNegates | app/modules/ledger/service.py:273-300 | swapped lines have the opposite effect on every account and exchange the totals of the two sides |
| Ledger.PostKeeps | app/modules/ledger/service.py:374-418 | an accepted posting keeps: gapless numbers per year, balanced sound lines, a receivables account no manual entry touches, sound reversals, unique sources |
| Ledger.ReverseKeeps | app/modules/ledger/service.py:476-570 | an accepted reversal keeps the same; in particular it mirrors one unreversed entry that is not a reversal |
| Ledger.ReversalsCancel | app/modules/ledger/service.py:512-567 | every entry has at most one reversal, a reversal has none, and original plus reversal net to zero on every account |
| Ledger.UnsourcedKeepsReceivable | app/modules/ledger/service.py:175-204 | manual entries and reversals cannot move the receivables balance |
| Ledger.GroupedSide | app/modules/ledger/service.py:632-647 | grouping lines by account preserves the total of either side |
| Ledger.TrialBalanceBalances | app/modules/ledger/service.py:600-662 | for the whole history and for every period the report covers every account with a line, loses no amount, and its debits equal its credits |
| Ledger.TrialBalanceRowsNet | app/modules/ledger/service.py:632-662 | each row nets to its account's balance over exactly the selected entries, and an account without a row has none |
| Ledger.TrialBalanceColumns | app/modules/ledger/service.py:632-647 | either column of a row is the sum of that side over the lines of the account in all entries of the period |
| Ledger.ValidateLines | app/modules/ledger/service.py:112-153 | accepts iff every line is functional-currency, one-sided, at rate 1 with matching transaction amounts, and the totals balance above zero; otherwise reports the first bad line or which total rule failed |
| Ledger.BuildLines | app/modules/ledger/service.py:273-300 | builds the lines as given, or with debit and credit of both amounts exchanged |
| Ledger.LedgerService.ResolveAndLockPeriod | app/modules/ledger/service.py:212-241 | fails iff the month has no period or a closed one |
| Ledger.LedgerService.AllocateEntryNo | app/modules/ledger/service.py:244-270 | hands out the counter of the year, 1 on first use, and advances only that counter |
| Ledger.LedgerService.PostJournalEntry | app/modules/ledger/service.py:374-418 | reaches the prescribed books; a refusal leaves everything, except that a source conflict has already consumed a number which only the caller's savepoint gives back |
| Ledger.LedgerService.PostReversal | app/modules/ledger/service.py:476-570 | reaches the prescribed books or changes nothing |
| Ledger.LedgerService.ClosePeriod | app/modules/ledger/service.py:344-366 | closes the period, idempotently, touching nothing else |
| Posting.HandlePostingEvent | app/modules/ledger/posting.py:310-401 | reaches the prescribed books; a duplicate is undone with its counter, any failure leaves the books as they were |
| Posting.EventLinesFacts | app/modules/ledger/posting.py:234-260 | the two lines of a rule are postable iff the rounded amount is positive, touch exactly the rule's two accounts and move the rounded amount from one to the other |
| Posting.DeliveryShape | app/modules/ledger/posting.py:344-401 | a delivery either changes nothing, or appends one balanced entry of the rounded amount under its own unused key and moves no other account |
| Posting.VoidsMirror | app/modules/ledger/posting.py:234-260 | the two lines of an issue and of its void, or of a receipt and of its void, cancel on every account |
| Posting.PostEventKeeps | app/modules/ledger/posting.py:310-401 | a delivery keeps every invariant of the books, whatever the event |
| Posting.RedeliveryPostsNothing | app/modules/ledger/posting.py:390-401 | a delivery under a used key leaves the books alone, whether it is skipped or aborts |
| Posting.DuplicateSkipsIff | app/modules/ledger/posting.py:344-401 | of two, it is skipped iff both accounts are on the chart, the amount rounds to something positive and the period of its date is open; otherwise it aborts |
| Posting.CostPostingTrichotomy | app/modules/ledger/posting.py:344-365 | a cost total is skipped iff it is 0, aborts iff it is positive but rounds to 0, and otherwise posts the rounded amount from inventory to cost of goods sold |
| Posting.CostDrift | app/modules/ledger/posting.py:344-365 | after any run of cost deliveries the cost account differs from the exact cost of what was posted by at most half a stored unit per posting |
| Inventory.ApplyMoveKeeps | app/modules/inventory/service.py:163-208 | a move keeps on-hand equal to the sum of moves, never negative, and sources unique per product |
| Inventory.ShipKeeps | app/modules/inventory/service.py:294-321 | a shipment batch, applied or skipped, keeps the same |
| Inventory.QtyIsDemand | app/modules/inventory/service.py:294-298 | the quantity dictionary holds exactly the shipped products, each with its summed quantity |
| Inventory.FirstDelivery | app/modules/inventory/service.py:244-321 | a first delivery of any lines succeeds iff each product's summed quantity is on hand; it then lowers each product by that sum with one move per product, and otherwise fails for lack of stock |
| Inventory.FirstDeliveryMoves | app/modules/inventory/service.py:299-311 | every shipped product gets a move under the shipment's key, and no other key gains one |
| Inventory.LineByLineIsCovered | app/modules/inventory/service.py:163-208 | deducting line after line succeeds iff the summed quantities are covered, with the summed effect |
| Inventory.AnyLineOrder | app/modules/inventory/service.py:294-311 | the batch has the outcome and effect of line-by-line deduction in any order of the lines |
| Inventory.RedeliveryMovesNothing | app/modules/inventory/service.py:289-321 | redelivering a shipment any line of which moved already moves nothing, whether it is skipped or aborts |
| Inventory.RedeliverySkipsIff | app/modules/inventory/service.py:289-321 | it is skipped iff, in id order, some product that moved under the key is reached with its own quantity and those of all products before it on hand, and aborts otherwise |
| Inventory.FullRedeliverySkipsIff | app/modules/inventory/service.py:289-321 | a shipment that moved entirely is skipped iff its first product in id order still has the summed quantity on hand, and otherwise fails for lack of stock |
| Inventory.ShipDelivers | app/modules/inventory/service.py:289-321 | a delivery that does not abort leaves a move under its key, whether it applied or skipped |
| Inventory.RebuildIsIdentity | app/cli/rebuild_stock_summary.py:105-152 | rebuilding a sound summary changes nothing |
| Inventory.RebuildRepairs | app/cli/rebuild_stock_summary.py:105-152 | from any drifted or missing rows a rebuild succeeds iff no product's moves sum below zero, and then every row is that sum |
| Inventory.InventoryService.GetOrLockSummary | app/modules/inventory/service.py:129-160 | returns the row's quantity, creating a zero row if there is none |
| Inventory.InventoryService.ApplyStockMove | app/modules/inventory/service.py:163-208 | checks sufficiency before any constraint can fire, and reaches the prescribed stock; a failure adds no move |
| Inventory.InventoryService.CreateAdjustment | app/modules/inventory/service.py:216-236 | refuses foreign products, reaches the prescribed stock, or changes nothing |
| Inventory.InventoryService.AggregateByProduct | app/modules/inventory/service.py:294-298 | the loop computes the quantity dictionary |
| Inventory.InventoryService.HandleGoodsShipped | app/modules/inventory/service.py:244-321 | reaches the prescribed stock; the savepoint undoes a partial batch both on a duplicate and on a failure |
| Inventory.InventoryService.OverwriteRows | app/cli/rebuild_stock_summary.py:139-150 | whatever the order of the walk, every row with a summary or a move ends at its total, and is counted once |
| Inventory.InventoryService.RebuildCompany | app/cli/rebuild_stock_summary.py:105-152 | reaches the prescribed summary and count, or leaves it as it was |
| Fingerprint.IdTextReadsBack | app/modules/receivables/service.py:538-548 | the text of an id determines the id |
| Fingerprint.AmountTextReadsBack | app/modules/receivables/service.py:538-548 | the six-decimal text of an amount determines the amount |
| Fingerprint.SortedIsUnique | app/modules/receivables/service.py:546 | two sorted lists with the same members, counted, are the same list |
| Fingerprint.JoinedIsInjective | app/modules/receivables/service.py:547 | the joined string determines the list of pairs |
| Fingerprint.FingerprintIsExact | app/modules/receivables/service.py:538-548 | the string that is hashed is equal for two commands iff they hold the same (invoice, amount) pairs, counted, in any order |
| Receivables.RecordedInvoice | app/modules/receivables/service.py:637-658 | a written command settles each targeted invoice by exactly its line, keeps it within its total, and derives its status |
| Receivables.AllocateKeeps | app/modules/receivables/service.py:551-663 | an accepted command keeps: every balance equals its rows, bounds, derived status, commands imply allocations |
| Receivables.AllocateKeepsSubledger | app/modules/receivables/service.py:643-660 | allocation never changes what customers owe |
| Receivables.AddInvoiceKeeps | app/modules/receivables/service.py:279-300 | issuing keeps the invariant and raises the subledger by the total |
| Receivables.VoidInvoiceKeeps | app/modules/receivables/service.py:339-365 | voiding keeps it and lowers the subledger by the total |
| Receivables.AddPaymentKeeps | app/modules/receivables/service.py:388-420 | a receipt keeps it and lowers the subledger by the amount |
| Receivables.VoidPaymentKeeps | app/modules/receivables/service.py:491-517 | voiding a receipt keeps it and raises the subledger by the amount |
| Receivables.RetryIsExact | app/modules/receivables/service.py:574-593 | under a recorded reference the same pairs in any order succeed without effect, any other body is refused |
| Receivables.RebuildRestores | app/cli/rebuild_ar_balances.py:81-141 | from arbitrary drift in settled, allocated and non-void status the rebuild restores exactly the values the allocation rows produced; it is the identity on a sound subledger |
| Receivables.ReceivablesService.InsertInvoice | app/modules/receivables/service.py:279-300 | inserts an open invoice unless the order has a live one, or changes nothing |
| Receivables.ReceivablesService.MarkInvoiceVoid | app/modules/receivables/service.py:348-365 | voids only a live, unsettled invoice, or changes nothing |
| Receivables.ReceivablesService.InsertPayment | app/modules/receivables/service.py:405-420 | records a receipt unless its external reference is used, or changes nothing |
| Receivables.ReceivablesService.MarkPaymentVoid | app/modules/receivables/service.py:491-517 | voids only an unallocated receipt, or changes nothing |
| Receivables.ReceivablesService.JudgeCommand | app/modules/receivables/service.py:557-635 | decides, before any write, refusal, replay or new command, and names the refusal |
| Receivables.ReceivablesService.WriteAllocations | app/modules/receivables/service.py:646-658 | the loop writes one row per line and settles each invoice in turn |
| Receivables.ReceivablesService.AllocatePaymentCore | app/modules/receivables/service.py:551-663 | reaches the prescribed subledger; a rejected command changes nothing |
| Receivables.ReceivablesService.RecomputeInvoices | app/cli/rebuild_ar_balances.py:119-130 | the loop sets every invoice to the sum of its rows, with the derived status unless void, and counts those whose amount was off |
| Receivables.ReceivablesService.RecomputePayments | app/cli/rebuild_ar_balances.py:132-137 | the loop sets every payment to the sum of its rows and counts those whose amount was off |
| Receivables.ReceivablesService.RebuildCompany | app/cli/rebuild_ar_balances.py:74-141 | reaches the prescribed balances and returns how many invoices and payments were off, or leaves everything when a constraint would fail |
| Aging.ExactlyOneBucket | app/modules/receivables/service.py:770-800 | for every bucket date each open invoice falls in one and only one bucket |
| Aging.CellsHoldTheirItems | app/modules/receivables/service.py:775-817 | each cell of the report equals a sum straight over the tables: the customer's open invoices of that age band, and its unapplied payments |
| Aging.Population | app/modules/receivables/service.py:724-743 | the report's customers are exactly those with an open invoice or unapplied credit, payment-only ones included |
| Aging.ReportIsOwed | app/modules/receivables/service.py:696-824 | each net total is open invoices less unapplied credit, whatever the bucket date |
| Aging.GrandTotalIsSubledger | app/modules/receivables/service.py:696-824 | the net totals of all customers add up to the subledger |
| Sales.StoredTotalDrift | app/modules/sales/service.py:150-186 | the stored total differs from the exact total, and from the sum of the stored lines, by at most half a unit per rounding |
| Sales.StoredTotalAddsUpIff | app/modules/sales/service.py:379-388 | at confirmation the stored total is the sum of the stored lines iff that sum is within half a unit of the exact total, the upper half included |
| Sales.DraftTotalAddsUpIff | app/modules/sales/service.py:150-186 | the same for a draft as it is created or edited |
| Sales.GridLinesAddUp | app/modules/sales/service.py:150-186 | lines whose exact amounts need no rounding always add up to the stored total |
| Sales.StoredTotalsMayDiffer | app/modules/sales/service.py:150-186 | two lines of half a unit are stored as 1 and 1 under a stored total of 1 |
| OrderSums.QuoteIsBuilt | app/modules/sales/service.py:150-186 | the accumulated draft total is the sum over the lines of quantity times the quoted price, or times the list price where none was quoted |
| OrderSums.WorthIsExact | app/modules/sales/service.py:379-388 | the accumulated total at confirmation is the sum of the frozen amounts of hand-priced lines and of quantity times today's list price of the others |
| OrderSums.CostIsTotal | app/modules/sales/service.py:457-471 | the accumulated cost is the sum over the lines of quantity times today's standard cost, and that of the payload's own lines |
| Sales.CreateKeeps | app/modules/sales/service.py:230-259 | a created draft has positive quantities and no negative price, amount or total |
| Sales.UpdateKeeps | app/modules/sales/service.py:291-343 | an edited draft keeps that |
| Sales.ConfirmKeeps | app/modules/sales/service.py:378-388 | repricing at confirmation keeps that |
| Sales.SalesService.BuildLines | app/modules/sales/service.py:150-186 | the loop builds each line at its override or list price and accumulates the exact total |
| Sales.SalesService.CreateOrder | app/modules/sales/service.py:230-259 | refuses an unknown customer or product, files the priced draft in the customer's currency, or changes nothing |
| Sales.SalesService.UpdateOrder | app/modules/sales/service.py:291-343 | edits a draft only: replaces lines and total when lines are given, keeps both when they are not, or changes nothing |
| Sales.SalesService.Reprice | app/modules/sales/service.py:379-388 | the loop keeps overridden lines, gives the others today's list price, and accumulates the exact total |
| Sales.SalesService.CollectPayload | app/modules/sales/service.py:457-471 | the loop lists each line with today's standard cost and accumulates the exact cost |
| Sales.SalesService.CancelOrder | app/modules/sales/service.py:499-519 | cancels a draft or confirmed order only, or changes nothing |
| Credit.ConfirmRaises | app/modules/receivables/service.py:832-877 | confirming raises exactly its customer's exposure, by the stored total |
| Credit.ShipKeepsExposure | app/modules/receivables/service.py:832-877 | shipping leaves exposure unchanged |
| Credit.InertOrderWrite | app/modules/receivables/service.py:832-877 | drafting, editing and cancelling never raise exposure |
| Credit.IssueKeepsExposure | app/modules/receivables/service.py:832-877 | issuing moves the order's total from the uninvoiced to the open part: exposure is unchanged |
| Credit.VoidKeepsExposure | app/modules/receivables/service.py:832-877 | voiding moves it back: exposure is unchanged |
| Credit.SettleLowersExposure | app/modules/receivables/service.py:832-877 | allocation never raises exposure |
| Credit.CheckedTotalFits | app/plugins/credit_limit.py:119-133 | a confirmation that passes the check with its exact total is within limit plus grace with its stored total |
| Kernel.PublishDocument | app/core/events.py:246-279 | the first publication of a document event posts one entry under its key and moves the receivables balance by exactly the document's amount |
| Kernel.PublishedStepKeeps | app/core/events.py:246-279 | a subledger step together with its published event keeps the whole invariant, tie-out included |
| Kernel.IssueKeeps | app/modules/receivables/service.py:224-317 | issuing an invoice keeps the kernel invariant |
| Kernel.VoidKeeps | app/modules/receivables/service.py:339-380 | voiding an invoice keeps it |
| Kernel.ReceiveKeeps | app/modules/receivables/service.py:388-447 | a receipt, with or without inline allocation, keeps it |
| Kernel.VoidReceiptKeeps | app/modules/receivables/service.py:491-530 | voiding a receipt keeps it |
| Kernel.AllocateToKeeps | app/modules/receivables/service.py:551-663 | a late allocation keeps it |
| Kernel.ConfirmKeepsKernel | app/modules/sales/service.py:351-437 | confirming an order keeps it |
| Kernel.ShipOrderKeeps | app/modules/sales/service.py:440-496 | shipping an order keeps it: stock, entry and status move together under a key not used before |
| Kernel.OrderServicesKeep | app/modules/sales/service.py:230-343 | creating, editing and cancelling orders keep it |
| Kernel.BookServicesKeep | app/modules/ledger/service.py:308-570 | manual entries, reversals, periods and account settings keep it |
| Kernel.AdjustKeeps | app/modules/inventory/service.py:216-236 | stock adjustments keep it |
| Kernel.RedeliveryChangesNothing | app/core/events.py:282-294 | dispatching an event whose effects are there is skipped or aborts, and changes nothing |
| Kernel.RebuildsChangeNothing | app/cli/rebuild_ar_balances.py:81-141 | both rebuilds are the identity on every state that satisfies the invariant |
| Kernel.RunKeeps | app/modules/receivables/service.py:224-663 | every run of service calls, failed ones rolled back, keeps the invariant |
| Reachable.ReceivablesTieOut | app/modules/ledger/posting.py:234-260 | in every reachable state account 1100 equals open invoices less unapplied payments, and the aging report of any date adds up to it |
| Reachable.PostedExactlyOnce | app/modules/ledger/posting.py:390-401 | in every reachable state each issued, voided or received document has exactly one entry, and each event entry has its document |
| Reachable.BalancesMatchRows | app/modules/receivables/models.py:136-151 | in every reachable state settled and allocated amounts are the sums of their rows and within bounds, status is exactly what settled dictates, and an allocated payment cannot be voided |
| Reachable.BooksBalance | app/modules/ledger/service.py:600-662 | in every reachable state numbers of every year are 1 to next_no - 1 and the trial balance balances for every filter |
| Reachable.StockTiesOut | app/modules/inventory/service.py:163-208 | in every reachable state on-hand is the non-negative sum of moves, and a shipment moved each product at most once |
| Reachable.ShipsIffPossible | app/modules/sales/service.py:440-496 | in a reachable state an order ships iff it is confirmed, its products are known, each is on hand in the quantity over all lines, and the cost summed over the lines is zero or postable |
| Reachable.IssuesIffPossible | app/modules/receivables/service.py:224-317 | in a reachable state an order can be invoiced iff the id is new, it is shipped with a positive total in TWD, its customer is known and billed in TWD, it has no live invoice, the dates are in order, and the books carry 1100 and 4000 and an open period |
| Reachable.VoidsIffPossible | app/modules/receivables/service.py:339-380 | an invoice can be voided iff it is open and unsettled and the books carry 1100 and 4000 and an open period today |
| Reachable.ReceiptVoidsIffPossible | app/modules/receivables/service.py:491-530 | a receipt can be voided iff it is live and unallocated and the books carry 1000 and 1100 and an open period today |
| Reachable.ShippingMovesAndPosts | app/modules/sales/service.py:440-496 | shipping takes of each product the quantity over all lines and moves the cost summed over the lines, rounded once, from 1300 to 5000, no other product or account |
| Reachable.RedeliveryIsHarmless | app/core/events.py:282-294 | redelivering any recorded event to a reachable state changes nothing |
| Reachable.RedeliversIff | app/core/events.py:282-294 | in a reachable state redelivering a recorded event returns normally iff a shipment's first product is still on hand in the shipped quantity and the books would still take the entry |
| Reachable.RebuildsAreIdentity | app/cli/rebuild_stock_summary.py:105-152 | both rebuilds are the identity on every reachable state |
| Reachable.CommandsSurvive | app/modules/receivables/service.py:574-593 | no service forgets or rewrites a recorded allocation command |
| Reachable.RetryInAnyLaterState | app/modules/receivables/service.py:574-593 | a committed command, resubmitted after any further run with its lines in any order, succeeds without effect; any other body under the reference is refused |
| Reachable.InlineRetryInAnyLaterState | app/modules/receivables/service.py:433-444 | the same for the command recorded by an inline allocation, under the payment's own reference |
| Reachable.OnlyConfirmRaises | app/modules/receivables/service.py:832-877 | no service but confirmation raises any customer's exposure |
| Reachable.InvoicingKeepsExposure | app/modules/receivables/service.py:832-877 | issuing and voiding invoices leave every customer's exposure unchanged |
| Reachable.ConfirmStaysWithin | app/plugins/credit_limit.py:108-133 | a checked confirmation leaves its customer within limit plus grace and nobody else touched |
| Reachable.ExposureStaysWithin | app/plugins/credit_limit.py:108-133 | over any run with checked confirmations exposure stays within the largest limit plus grace in force |
| History.StepAdvances | app/core/events.py:246-279 | no service call rewrites or removes entries, moves, allocations or outbox rows, reopens a month, or posts into a closed one |
| History.HistoryIsAppendOnly | app/modules/ledger/service.py:212-241 | the same over every run: what was posted stays, closed months stay closed and gain nothing |
| History.OrdersLive | app/modules/sales/service.py:291-519 | every call moves an order only along draft, confirmed, shipped or to cancelled; confirming keeps the goods and the hand-set prices |
| History.OrdersSettle | app/modules/sales/service.py:440-519 | over every run shipped and cancelled orders never change, and confirmed ones keep customer, lines and total |
| OrderEffects.CreatesIff | app/modules/sales/service.py:230-259 | an order is filed iff every line has a positive quantity, no negative quote and a known product, the customer is known and the id is new |
| OrderEffects.CreateFiles | app/modules/sales/service.py:150-259 | the draft holds each line at its quoted price, or the list price where none was quoted, each amount rounded to the nearest unit and the exact total rounded once, in the customer's currency; nothing else changes |
| OrderEffects.UpdatesIff | app/modules/sales/service.py:291-343 | an order is edited iff it is a draft and the new lines, if any, are acceptable |
| OrderEffects.UpdateFiles | app/modules/sales/service.py:291-343 | an edit with lines replaces all lines and the total as for a new draft, and nothing else; one without lines changes nothing |
| OrderEffects.CancelsIff | app/modules/sales/service.py:499-519 | an order is cancelled iff it is a draft or confirmed, and only its status changes |
| OrderEffects.ConfirmsIff | app/plugins/credit_limit.py:108-133 | a confirmation succeeds iff the order is a nonempty draft of a known customer with known products and positive exact worth, and the customer has no limit or exposure plus exact worth is at most limit plus grace |
| OrderEffects.LimitIsInclusive | app/plugins/credit_limit.py:126-133 | worth that lands exactly on limit plus grace is confirmed; the smallest exact amount more is refused as a conflict |
| OrderEffects.ConfirmFiles | app/modules/sales/service.py:378-437 | lines priced by hand stay, the others take today's list price and the nearest amount, the total is the exact worth rounded once, one event of the exact worth is recorded, and nothing else changes |
| OrderEffects.ConfirmRefusals | app/modules/sales/service.py:351-437 | a refused confirmation is not-found iff the order is unknown, a conflict iff it is no draft or only the limit stands against it, and invalid otherwise |
| OrderEffects.ShipRecords | app/modules/sales/service.py:457-496 | a shipment records one event with the order's lines at today's standard costs and the exact cost summed over them |
| OrderEffects.ShipRefusals | app/modules/sales/service.py:440-496 | a refused shipment is not-found, a status conflict, or, before anything the books object to, lack of stock iff some product is not covered |
| OrderEffects.AdjustsIff | app/modules/inventory/service.py:163-236 | an adjustment is accepted iff it is not zero and leaves no deficit; it adds one move and changes that product alone |
| ReceivableEffects.AllocatesIff | app/modules/receivables/service.py:557-635 | under a new reference an allocation is accepted iff it has lines, positive and on distinct invoices, the payment is live, each line is for a live invoice of its customer within the open amount, and their sum is within the unapplied credit |
| ReceivableEffects.AllocateWrites | app/modules/receivables/service.py:637-663 | it pays each invoice down by what was asked for it, Paid exactly at the total and Partial below, draws the sum from the payment, appends one row per line in order, records the command, and changes nothing else |
| ReceivableEffects.AllocateRefusals | app/modules/receivables/service.py:557-635 | a refused command is not-found iff well formed for an unknown payment, a conflict iff the payment is void or an eligible request exceeds a capacity, and invalid otherwise |
| ReceivableEffects.AllocationLowersExposureBy | app/modules/receivables/service.py:832-877 | a new command lowers its customer's exposure by exactly what it asks for, and nobody else's |
| ReceivableEffects.IssueWrites | app/modules/receivables/service.py:268-317 | the invoice carries the order's customer and total and the due date asked for, or else the customer's terms from the invoice date; one entry moves the total to 1100 from 4000, every other account stays |
| ReceivableEffects.SecondInvoiceConflicts | app/modules/receivables/service.py:279-300 | an issue is refused as a conflict iff nothing is wrong but that the order has a live invoice |
| ReceivableEffects.VoidWrites | app/modules/receivables/service.py:339-380 | the invoice is marked void, and one entry moves its total to 4000 from 1100 and nothing else |
| ReceivableEffects.ReceivesIff | app/modules/receivables/service.py:388-447 | a receipt is accepted iff the customer is known and billed in TWD, the amount is positive, id and reference are new, the books carry 1000 and 1100 and an open period, and an inline allocation is well formed, payable and within the amount |
| ReceivableEffects.ReceiveWrites | app/modules/receivables/service.py:388-447 | the payment is filed, one entry moves the amount to 1000 from 1100 and nothing else, and an inline allocation is written under the receipt's reference |
| ReceivableEffects.VoidReceiptWrites | app/modules/receivables/service.py:491-530 | the payment is marked void, and one entry moves the amount to 1100 from 1000 and nothing else |
| LedgerEffects.EventEntriesTieOut | app/modules/ledger/posting.py:234-260 | in every reachable state the event entries show the live invoices on 4000, the live payments on 1000, the difference on 1100, the costs of all recorded shipments, each rounded once, on 5000 and off 1300, and nothing anywhere else |
| LedgerEffects.ManualEntryIff | app/modules/ledger/service.py:112-204 | a manual entry is accepted iff it has two lines or more, each in TWD at rate 1, on one side, on a known account that is no control account, debits equal credits, and the month is open |
| LedgerEffects.ManualEntryMoves | app/modules/ledger/service.py:374-418 | it is appended as given, without a source, and moves each account by its lines |
| LedgerEffects.ReversalIff | app/modules/ledger/service.py:476-570 | an entry can be reversed iff it is no reversal, has none, touches no control account and today's month is open |
| LedgerEffects.ReversalMoves | app/modules/ledger/service.py:512-570 | the reversal is dated today, has every line with its sides exchanged, and moves each account back |
| LedgerEffects.SettingsAre | app/modules/ledger/service.py:308-366 | a month is opened once and closed if it exists, touching nothing else |
| Documents.OutboxKeysAreDistinct | app/core/events.py:246-279 | in every reachable state no two outbox rows share event type and source id |
| Documents.ShipmentsAreCosted | app/modules/sales/service.py:457-496 | in every reachable state a recorded shipment carries the exact cost of its own lines, quantity times unit cost, and names product and quantity of each line of its shipped order |
| Documents.VoidedLeavesNoTrace | app/modules/ledger/posting.py:234-260 | in every reachable state the entries of an invoice and of its void, or of a receipt and of its void, net to zero on every account |
| Documents.RunKeepsDocumented | app/modules/ledger/posting.py:310-401 | over every run each entry of an invoice or receipt event holds exactly the lines of its rule at the document's amount, each recorded event's document is in the announced state, and no key is recorded twice |
| Walkthrough.OrderIsPaid | app/modules/receivables/service.py:388-447 | some run takes an order from draft to shipped, invoiced and paid: its total ends on 1000 and 4000, its cost on 5000 and 1300, and 1100 is back at zero |
| Walkthrough.ConfirmedAtTheNewPrice | app/modules/sales/service.py:378-388 | in a reachable state a draft priced at the old list price is confirmed at the new one, with a total that exhausts the credit limit to the last unit |
| Walkthrough.RedeliveryMayAbort | app/modules/inventory/service.py:191-194 | one recorded shipment, redelivered in three reachable states, aborts, is skipped, and aborts, as stock comes and goes |
| Company.WiringIsDispatch | app/main.py:291-348 | with the start-up wiring, running the subscriber list in order is the kernel's dispatch |
| Company.SumUninvoiced | app/modules/receivables/service.py:843-858 | computes the sum of confirmed or shipped orders without a live invoice |
| Company.SumOpenInvoices | app/modules/receivables/service.py:859-867 | computes the sum of open amounts of live invoices |
| Company.Services.DispatchEvent | app/core/events.py:222-243 | the handler loop reaches the dispatched state or passes the first exception on |
| Company.Services.PublishEvent | app/core/events.py:246-279 | records the event and dispatches it in the same transaction |
| Company.Services.Redispatch | app/core/events.py:282-294 | dispatches without an outbox row, or changes nothing |
| Company.Services.CheckCreditLimit | app/plugins/credit_limit.py:108-133 | passes iff the limit is 0 or committed exposure plus the exact total is within limit plus grace |
| Company.Services.ConfirmOrder | app/modules/sales/service.py:351-437 | checks customer, products and limit in the source's order and reaches the prescribed tables, or changes nothing |
| Company.Services.ShipConfirmed | app/modules/sales/service.py:440-496 | reaches the prescribed tables; if any handler fails, stock, books, outbox and order are all as before |
| Company.Services.CreateInvoice | app/modules/receivables/service.py:224-317 | checks status, both currencies, the customer and the dates, with the due date from the customer's terms, and reaches the prescribed tables, or changes nothing |
| Company.Services.VoidIssued | app/modules/receivables/service.py:339-380 | reaches the prescribed tables, or changes nothing |
| Company.Services.CreatePayment | app/modules/receivables/service.py:388-447 | refuses an unknown or foreign-currency customer and reaches the prescribed tables; a refused inline allocation undoes the receipt and its entry too |
| Company.Services.VoidReceived | app/modules/receivables/service.py:491-530 | reaches the prescribed tables, or changes nothing |
| Replay.DeliveryLeavesTrace | app/cli/replay_outbox.py:105-135 | a delivery that goes through either changes nothing or raises the effect count of its own key |
| Replay.VerdictsAreHonest | app/cli/replay_outbox.py:171-196 | a row counts as succeeded iff it changed something, and then only in its own company |
| Replay.EveryRowIsCounted | app/cli/replay_outbox.py:94-102 | succeeded plus skipped plus failed equals the number of rows |
| Replay.PoisonIsIsolated | app/cli/replay_outbox.py:158-190 | leaving out a row that failed or was skipped changes nothing for any other row |
| Replay.ReplayKeepsUniqueness | app/cli/replay_outbox.py:138-198 | replaying any rows in any order keeps, per company, one entry per source, one move per source and product, gapless numbers and a sound summary |
| Replay.AppliedAtMostOnce | app/cli/replay_outbox.py:138-198 | once a row went through, every later row with the same company and payload changes nothing, whatever is replayed in between |
| Replay.KeySucceedsOnce | app/cli/replay_outbox.py:138-198 | for the four document events at most one row per company, event type and source id succeeds, whatever the payloads and whatever is replayed in between |
| Replay.RecordedReplayIsIdentity | app/cli/replay_outbox.py:138-198 | replaying published rows of reachable companies, in any order and multiplicity, changes nothing and counts no success |
| Replay.RecordedVerdict | app/cli/replay_outbox.py:158-196 | a published row of a reachable company counts as skipped iff the company could still take its effects, and as failed otherwise |
| Replay.UnreadableFails | app/cli/replay_outbox.py:158-170 | a row without a readable company or payload counts as failed and changes nothing |
| Replay.CountEffects | app/cli/replay_outbox.py:105-135 | counts the rows under the key in both side-effect tables |
| Replay.OutboxReplay.ReplayRow | app/cli/replay_outbox.py:158-196 | one row's transaction reaches the prescribed world and verdict |
| Replay.OutboxReplay.Drain | app/cli/replay_outbox.py:138-198 | the loop replays exactly the pending rows in order, stamps exactly those that committed, and its three counters add up to their number |
| StockProtocol.WriterCommits | app/modules/inventory/service.py:129-208 | a committing writer moves on-hand and the sum of moves by the same amount, for every product |
| StockProtocol.RebuildCommits | app/cli/rebuild_stock_summary.py:105-152 | a committing rebuild leaves exactly what the sequential rebuild prescribes for the rows and moves committed by then |
| StockProtocol.RebuilderStep | app/core/locking.py:41-57 | under the exclusive lock and the row locks, the totals a rebuild read stay the totals of the committed moves |
| StockProtocol.StepKeeps | app/cli/rebuild_stock_summary.py:105-152 | every step of every transaction keeps the protocol's invariant |
| StockProtocol.CommittedStockIsConsistent | app/cli/rebuild_stock_summary.py:105-152 | in every committed state of every interleaving, a company consistent at the start or rebuilt since has on-hand equal to the non-negative sum of committed moves |
| StockProtocol.RebuildMakesSound | app/cli/rebuild_stock_summary.py:105-152 | from drifted or missing rows, equality holds from the rebuild's commit on, whoever runs beside it |
| SerialStock.EveryServiceRuns | app/modules/inventory/service.py:129-321 | whatever a service call does to a reachable company's stock, some schedule of the protocol does: it refuses nothing the services accept |
| SerialStock.RebuildRuns | app/cli/rebuild_stock_summary.py:105-152 | from any drift the protocol's rebuild, run alone, reaches what the sequential rebuild prescribes |
| BalanceProtocol.WriterCommits | app/modules/receivables/service.py:637-660 | a committing issue, receipt, allocation or void moves each balance and the sum of its rows alike and keeps amounts within bounds and status derived |
| BalanceProtocol.AllocatedRows | app/modules/receivables/service.py:608-660 | one allocation line within both capacities keeps both rows within bounds with derived status, and moves nothing in or out of the receivables |
| BalanceProtocol.RebuilderStands | app/cli/rebuild_ar_balances.py:81-105 | a commit beside a rebuild cannot touch what its scans locked, and rows the scans could not see enter sound |
| BalanceProtocol.RebuildCommits | app/cli/rebuild_ar_balances.py:98-141 | what a rebuild commits for a row, amount and status, is what the allocation rows committed by then dictate, not those when it read them |
| BalanceProtocol.StepKeeps | app/cli/rebuild_ar_balances.py:74-141 | every step of every transaction keeps the protocol's invariant |
| BalanceProtocol.CommittedBalancesMatch | app/cli/rebuild_ar_balances.py:74-141 | in every committed state of every interleaving, each row consistent at the start, inserted or rebuilt since has the sum of its allocation rows, between zero and its total, and exactly the derived status: concurrent allocations cannot overdraw |
| BalanceProtocol.RebuildMakesAllSound | app/cli/rebuild_ar_balances.py:74-141 | from any drift, once a rebuild commits every row has sum, bounds and derived status and keeps them, although no lock guards rows inserted meanwhile |
| BalanceProtocol.TieStays | app/modules/ledger/posting.py:310-401 | every step, each commit and each rebuild included, keeps the control account tied to the committed rows |
| BalanceProtocol.ControlTiesOutThroughout | app/modules/receivables/service.py:224-530 | in every committed state of every interleaving of issues, receipts, allocations, voids and rebuilds, account 1100 equals open invoices less unapplied payments |
| SerialBalance.EveryServiceRuns | app/modules/receivables/service.py:224-663 | whatever a service call does to invoices, payments, allocation rows and account 1100, some schedule of the protocol does |
| SerialBalance.RebuildRuns | app/cli/rebuild_ar_balances.py:74-141 | from any drift the protocol's rebuild, run alone, reaches what the sequential rebuild prescribes |
| NumberingProtocol.CommitContinues | app/modules/ledger/service.py:244-270 | what a transaction commits continues the committed numbers without gap or repeat, for every counter |
| NumberingProtocol.PosterStep | app/modules/ledger/service.py:374-418 | a posting transaction's pending numbers always continue the committed ones, through savepoint rollbacks |
| NumberingProtocol.StepKeeps | app/modules/ledger/service.py:212-270 | every step of every transaction keeps the protocol's invariant |
| NumberingProtocol.CommittedNumbersAreGapless | app/modules/ledger/service.py:244-270 | under any interleaving the committed numbers of each company and year are 1, 2, up to next_no - 1, in commit order |
| NumberingProtocol.NoEntryAfterClose | app/modules/ledger/service.py:212-241 | no entry commits into a period whose close committed earlier |
| SerialNumbering.EveryServiceRuns | app/modules/ledger/service.py:212-270 | whatever a service call does to numbers, dates and periods of the journal, some schedule of the protocol does |
| CreditProtocol.PlanCommit | app/modules/sales/service.py:351-437 | whatever committed in between, committing a decided plan raises a customer's exposure by no more than the confirmed total and keeps orders and invoices linked |
| CreditProtocol.SeenSurvives | app/modules/receivables/service.py:224-663 | no commit invalidates what another transaction has locked, claimed, or read of a shipped order |
| CreditProtocol.RisesExclude | app/modules/masterdata/service.py:184-203 | the customer row lock makes two confirmations of one customer exclude each other from check to commit |
| CreditProtocol.DecisionFits | app/plugins/credit_limit.py:108-133 | a confirmation is decided only if its stored total fits at that moment |
| CreditProtocol.StepKeeps | app/plugins/credit_limit.py:108-133 | every step of every transaction keeps the protocol's invariant |
| CreditProtocol.ExposureNeverExceedsLimit | app/plugins/credit_limit.py:108-133 | in every committed state of every interleaving a customer with a nonzero limit that does not fall stays within limit plus grace |
| SerialCredit.EveryServiceRuns | app/modules/masterdata/service.py:184-203 | whatever a service call writes to orders and invoices, some schedule of the protocol writes: no confirmation within the limit is refused |
| LockOrder.NeverDeadlocked | app/modules/inventory/service.py:271-302 | transactions that acquire in either ascending order always include one that can proceed, shared locks and arrival queues included |
| LockOrder.EverybodyCanFinish | app/cli/rebuild_stock_summary.py:118-127 | from every such state a schedule lets all of them finish |
| LockOrder.ServicesAscend | app/modules/receivables/service.py:568-598 | in the first order every service but inline receipts ascends, in the second every service but invoice voids |
| LockOrder.PartAscends | app/modules/ledger/posting.py:344-401 | so does every call that aborts early, posts nothing, or gives locks back with a savepoint |
| LockOrder.ServicesNeverDeadlock | app/cli/rebuild_ar_balances.py:83-97 | any set of running services, or of shortened runs of them, without inline receipts or without invoice voids has, at any point, one that can proceed and a schedule that completes all |
| LockOrder.InlineReceiptCanDeadlock | app/modules/receivables/service.py:422-444 | a receipt with inline allocation and a void of its invoice have a schedule on which each waits for the other |
| LockOrder.InlinePairDeadlocksIff | app/modules/receivables/service.py:339-444 | an inline receipt and one other service can deadlock iff the other voids one of the receipt's invoices in the same company and ledger year |
| RateLimiter.DrainedIsRecent | app/platform/permissions/middleware.py:38-39 | popping stale heads keeps exactly the grants of the last 60 seconds |
| RateLimiter.RecentIsCounted | app/platform/permissions/middleware.py:38-40 | what is counted are the grants less than 60 seconds old |
| RateLimiter.PruningIsInvisible | app/platform/permissions/middleware.py:47-52 | pruning the table changes no later decision about any peer |
| RateLimiter.WaitingHelps | app/platform/permissions/middleware.py:40-42 | waiting the returned time without a grant in between makes the next call succeed, and the time is at most 60 |
| RateLimiter.ShorterWaitFails | app/platform/permissions/middleware.py:40-42 | a second less than the returned time, if more than one, leaves the peer refused |
| RateLimiter.LoginRateLimiter.Prune | app/platform/permissions/middleware.py:47-52 | drains every queue and drops exactly the peers left without a recent grant |
| RateLimiter.LoginRateLimiter.OldestPeer | app/platform/permissions/middleware.py:34 | finds a tracked peer whose oldest grant is oldest of all |
| RateLimiter.LoginRateLimiter.MakeRoom | app/platform/permissions/middleware.py:30-36 | leaves room in the table; it evicts only when pruning left 4096 peers, and then the one with the oldest head |
| RateLimiter.LoginRateLimiter.Allow | app/platform/permissions/middleware.py:27-45 | grants iff fewer than 10 of all the peer's grants since its last eviction fall within the last 60 seconds; keeps queues nonempty, sorted and at most 10 long and the table at most 4096 |
| JsonNesting.CheckNesting | scripts/d5_security_gate.py:104-124 | the loop rejects iff the character automaton does, and ends in its state |
| JsonNesting.ValueScan | scripts/d5_security_gate.py:104-124 | at any level, scanning a serialised value rejects iff it nests too deep from there, and otherwise returns to the level outside strings |
| JsonNesting.ScanDecidesDepth | scripts/d5_security_gate.py:2885-2905 | for every JSON value in any serialisation the scan rejects iff array and object depth exceeds 128, and accepts outside strings at level 0 |

## Left out

- Ledger.PostKeeps: deleting accounts is not modelled; creating accounts and editing their control flag are.
- Ledger.TrialBalanceBalances: the report is a map from account to row; the ordering of rows by code is not modelled.
- Receivables.RebuildRestores: covers drift in amounts and in non-void statuses, as the rebuild does; drift in the void flag is not repairable from the allocation rows.
- Fingerprint.FingerprintIsExact: SHA-256 is taken to be injective, so a fingerprint is modelled by the string that is hashed.
- Posting.CostDrift: NUMERIC overflow above 10^14 is not modelled; amounts are unbounded.
- CreditProtocol.ExposureNeverExceedsLimit: the plugin is enabled throughout, and a limit set to 0 means unchecked, so only customers whose limit stays nonzero are covered.
- LockOrder.ServicesNeverDeadlock: waits on unique indexes, foreign keys and the outbox row of a replay are not modelled, only the locks the code takes explicitly; sets that mix inline receipts with invoice voids can deadlock, and for them only pairs are decided.
- Sales.SalesService.CreateOrder: the order number, the custom field values and the snapshot of the customer's names are not modelled.
- Sales.SalesService.UpdateOrder: the custom field values of an edit are not modelled, only that it leaves lines and total alone.
- Company.Services.ConfirmOrder: refreshing the order's snapshot of customer and product names is not modelled.
- Company.Services.CreateInvoice: the document number is not modelled, nor the snapshot of the customer's names.
- Company.Services.CreatePayment: the document number is not modelled.
- RateLimiter.LoginRateLimiter.Allow: time is a real number; rounding of the floating-point clock is not modelled. The history of an evicted peer starts anew.
- Replay.OutboxReplay.Drain: rows come in the order of the list, which stands for the order by `occurred_at`; the theorems about multisets hold for every order.
- PostgreSQL itself: unique indexes, CHECK constraints, savepoints, row and advisory locks and last-committed reads are the axioms of the step machines, taken from `alembic/versions/0002_ledger_initial.py`, `0003_posting_source_index.py`, `0005_inventory_and_shipping.py` and `0008_receivables.py`.
- Routers, permissions, sessions, tenancy filters, plugin loading, custom fields, request parsing beyond the guards named in the model: no state the laws depend on. Customers, catalogue prices, dates and ids arrive as arguments.
- Order, invoice and payment numbers: not required to be gapless, so only the ledger's numbers are modelled.
- Registration of events and handlers: the start-up wiring is a constant.
- Amounts in currencies other than TWD: invoicing and receipts refuse them.
- The rest of `scripts/d5_security_gate.py`: process control, hashing and field checks.
