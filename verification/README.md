# The ledger, the stock and the documents of OmniERP, modelled and proved

A Dafny 4.11 model of the money-and-stock core of the OmniERP backend: one
journal, the summaries kept beside it, and the documents that feed it. Check
everything with `dafny verify dfyconfig.toml`.

## How it is built

Every transaction is first a function from one state to the next, which either
returns the new state or the reason it is refused; a refused transaction leaves
the state as it was. Runs are sequences of such transactions, and the theorems
are about every run. The services that change rows step by step are classes
with the same fields, loops and branches, and every method is proved equal to
the transaction it implements, refusals and rollback included. Where the
program's safety comes from the database (row locks, atomic increments, the
trigger), the transactions are split further and every interleaving is covered.

Stored money is a whole number of cents, quantities and average costs are whole
ten-thousandths, and what reaches a column is an exact real that the column
rounds. Sales and purchasing mirror each other, so a `Trade` tells them apart.

| file | contents |
|---|---|
| Sums, Money | finite sums and their laws; the two ways the program rounds to cents |
| Journal, GeneralLedger | the journal, its summary rows and every transaction on them; the same as a class |
| Consistency, Chains | what every transaction keeps: summary = raw lines, sound reversal links, ordered numbers, covering periods; reversal chains |
| Transactions | the same on the rows' own fields: exactly when each transaction is accepted, what it files, what the summary rows then hold |
| Interleaving | posting and reversing concurrently: reads, locks, the trigger, increments, commits and aborts |
| Numbering | sequence rows and the unique number indexes under any interleaving, and the rendered numbers |
| Starter, Balance | the starter accounts and rules, what a rule does to any account, how far an entry can be out of balance |
| Reports, ManagementInfo | trial balance, balance sheet and control balances against the raw lines; closed periods |
| Calendar | months, fiscal years, the periods that tile them |
| Stock, Warehouse, StockLedger, StockDesk | moves and weighted averages; deliveries and counts; the tie-out with the ledger; the services as a class |
| Subledger, TieOut, Effects, OfficeDesk | invoices, settlements, notes, payroll, depreciation; receivables and payables tie-out; what each document books, pays and needs; the services as a class |
| Invoicing | invoice totals, payroll totals, depreciation schedules |
| Banking, BankDesk, BankingExample | matching and reconciling bank statement lines; the services as loops and a class; a book on which approval goes wrong |

## Where code and documentation disagree

The model follows the code.

- The architecture asks for balanced entries; both writers accept a difference
  of up to one cent (accounting-engine.service.ts:37 and 123,
  journal-entries.service.ts:12 and 51). A document's entry is exact if and only
  if its stored amounts add up (`Balance.EventBalancedIff`), and they do
  (`TieOut.DocumentsBalance`). A manual entry in whole cents is exact if and only
  if its amounts are (`Balance.DraftImbalance`); `Balance.OneCentAccepted` is an
  accepted one that is not.
- A comment says one adjustment side of a stock count is always zero
  (company-provisioning.data.ts:122-126). Each side is non-zero if and only if some
  line finds, or misses, value (`Counting.BothSidesIff`);
  `StockLedger.BothSidesExample` is a run whose two-line count has both.
- A comment says received goods reach the ledger's inventory when the supplier
  invoice posts (goods-receipts.ts:119-124); the starter rule debits purchase
  expense (company-provisioning.data.ts:63-70). So the tie-out leaves the cost of
  goods received as the exact difference between stock and ledger.
- The weighted average is said to value every removal; a receipt that leaves
  stock at or below zero resets the average to zero and drops the remaining
  value (inventory.service.ts:61). `Stock.ReceiptKeepsValueIff` says exactly which
  receipts do, `Stock.NegativeStockForgets` shows a log with one, and
  `Stock.ValuationDrift` holds for every log once the dropped value is counted.
- A comment accepts a race for the first number of a document type
  (numbering.service.ts:10-15). The unique number indexes settle it: the second
  transaction is rolled back (`Numbering.SecondCreatorAborts`), that is the only
  refusal there is (`Numbering.ClashIff`), and no number is ever issued twice
  (`Numbering.IssuedExactly`).
- The approval of a bank line is said to have one gap, a crash. There are two more.
  A settlement that cannot be posted stays behind as a draft, exactly when the books
  refuse it (`Banking.ApprovalStrandsIff`), and approvals that read the line before
  another ran book it again exactly when the first did
  (`Banking.StaleApprovalBooksTwice`). `BankingExample` reaches both from an empty
  company by a handful of commands.

## Model

| member | source | states |
|---|---|---|
| `GeneralLedger.Engine.PostEvent` | backend/src/accounting/accounting-engine.service.ts:57-191 | Posting an event appends one posted entry with the company's next number and counts its lines, or is refused with the first failing check and changes nothing; the ledger stays consistent. |
| `GeneralLedger.Engine.CollectLines` | backend/src/accounting/accounting-engine.service.ts:91-119 | The loop over a rule yields one line for every non-zero amount, in rule order, or the first account that cannot be resolved. |
| `GeneralLedger.Engine.Reverse` | backend/src/accounting/accounting-engine.service.ts:198-292 | Reversing is accepted exactly for a posted entry and a date in an open period of its company; it appends the mirror, dated then and filed in a period covering that date, marks the original and counts the mirror; anything else is refused without a trace. |
| `GeneralLedger.Engine.UpdateGlBalance` | backend/src/accounting/accounting-engine.service.ts:337-381 | The upsert creates the row or adds to both totals and touches no other row. |
| `GeneralLedger.Engine.CountEntry` | backend/src/accounting/accounting-engine.service.ts:175-188 | Adding the lines one at a time gives the summary with the whole entry counted, each line in the row with the line's own account and dimensions. |
| `GeneralLedger.Engine.CreateManual` | backend/src/accounting/journal-entries/journal-entries.service.ts:48-122 | A manual entry is filed as a numbered draft that counts nothing, or refused: negative, unbalanced, two-sided, no period, unknown account. |
| `GeneralLedger.Engine.Transition` | backend/src/accounting/journal-entries/journal-entries.service.ts:222-252 | Submit and approve change one status when it is the expected one and nothing else. |
| `GeneralLedger.Engine.Post` | backend/src/accounting/journal-entries/journal-entries.service.ts:132-198 | An approved entry in an open period becomes posted and its lines enter the summary; everything else is refused. |
| `Journal.FindPeriod` | backend/src/accounting/accounting-engine.service.ts:73-84 | The period found covers the date, and none is missed. |
| `Journal.Resolve` | backend/src/accounting/accounting-engine.service.ts:294-335 | An account a rule resolves to exists and belongs to the company of the event. |
| `Posting.ResolvesIff` | backend/src/accounting/accounting-engine.service.ts:294-335 | Exactly when a rule line finds its account, and which: an active account of the company with the tag, or the company's account the event names. |
| `Posting.EventEntryIs` | backend/src/accounting/accounting-engine.service.ts:129-163 | An accepted event becomes a posted entry on its own date, in an open period that covers it, with one line per rule line with an amount: its account, its amount on its side, the event's dimensions. |
| `Transactions.RunRowsAreLines` | backend/prisma/schema.prisma:738-763 | In every run the row of a company, period, account, branch, department, cost centre and profit centre holds the debits and credits of the posted and reversed lines with exactly those fields, none and the empty string being the same. |
| `Transactions.RunDated` | backend/src/accounting/accounting-engine.service.ts:214-243 | In every run every entry, drafts and reversals included, lies in a period of its company that covers the entry's own date. |
| `Transactions.RunNumbers` | backend/src/accounting/accounting-engine.service.ts:129-135 | In every run a company's entries are numbered 1, 2, 3, ... in the order of their creation. |
| `Transactions.ReversesIff` | backend/src/accounting/accounting-engine.service.ts:205-267 | Exactly when a reversal is accepted, and every field of the entry it files. |
| `Transactions.PostsIff` | backend/src/accounting/journal-entries/journal-entries.service.ts:132-186 | A manual entry is posted exactly when it is approved and its own period is open, and its lines then enter the rows with their own fields. |
| `Transactions.DraftsIff` | backend/src/accounting/journal-entries/journal-entries.service.ts:48-122 | A manual entry is filed exactly when its amounts are non-negative, one-sided and at most a cent apart, its accounts exist and some period covers its date; it is a draft on that date with the requested lines. |
| `Transactions.WorkflowIff` | backend/src/accounting/journal-entries/journal-entries.service.ts:222-239 | Submit takes exactly a draft and approve exactly a submitted entry, one step on and nothing else. |
| `Transactions.PeriodsIff` | backend/src/accounting/fiscal-periods/fiscal-periods.service.ts:71-96 | Setting a period's status takes exactly a period that is there and changes nothing else. |
| `Transactions.EventRefusal` | backend/src/accounting/accounting-engine.service.ts:57-127 | An event is refused for the first of: no active rule, no period, period not open, the first rule line without its account, no balance. |
| `Transactions.DraftRefusal` | backend/src/accounting/journal-entries/journal-entries.service.ts:48-83 | A manual request is refused for the first of: a negative amount, no balance, a two-sided line, no period, an unknown account. |
| `Transactions.EntryRefusal` | backend/src/accounting/accounting-engine.service.ts:205-225 | A posting or reversal is refused because the entry is missing, else for its status, else for the period. |
| `Consistency.AppendAgrees` | backend/src/accounting/accounting-engine.service.ts:137-188 | Appending an entry moves summary rows and raw line totals together, key by key. |
| `Consistency.PostingAgrees` | backend/src/accounting/journal-entries/journal-entries.service.ts:150-186 | Posting a manual entry is the moment its lines start to count, exactly once. |
| `Consistency.StepExtends` | docs/architecture/00-OMNIERP-ARCHITECTURE.md:390-412 | No transaction changes a line, an amount or a date of an existing entry; statuses move forward one step at a time. |
| `Consistency.RunKeepsHistory` | docs/architecture/00-OMNIERP-ARCHITECTURE.md:390-412 | Over any run entries stay in place with their lines, amounts and dates, and statuses never move back. |
| `Consistency.StepConsistent` | backend/src/accounting/accounting-engine.service.ts:57-292 | Every transaction keeps summary, reversal links and numbering consistent. |
| `Consistency.RunConsistent` | backend/prisma/schema.prisma:735-765 | In every reachable state, for every balance key, both totals equal the sums over lines of posted and reversed entries with that key. |
| `Chains.ChainWellShaped` | backend/src/accounting/accounting-engine.service.ts:198-292 | A reversal chain is acyclic and linear: each member reverses the one before, all but the last are reversed, the last is posted. |
| `Chains.ChainsPartition` | backend/src/accounting/accounting-engine.service.ts:198-292 | The chains of entries that reverse nothing are disjoint and together hold every counted entry. |
| `Chains.MirrorCancels` | backend/src/accounting/accounting-engine.service.ts:251-266 | A reversal has the opposite effect of its original on every account and dimension, whatever its period. |
| `Chains.ChainNet` | backend/src/accounting/accounting-engine.service.ts:198-292 | Over all periods a chain has its first entry's effect if its length is odd and none if it is even. |
| `Interleaving.RunSafe` | backend/prisma/migrations/20260827005400_fix_reversed_entry_immutability/migration.sql:10-21 | In every interleaving, aborts and stale reads included, the committed summary agrees with the committed lines and the reversal links are sound. |
| `Interleaving.ReversedAtMostOnce` | backend/prisma/migrations/20260827005400_fix_reversed_entry_immutability/migration.sql:13-18 | In every interleaving an entry has at most one committed reversal, and one exactly when its status is reversed. |
| `Interleaving.CountedExactlyOnce` | backend/src/accounting/journal-entries/journal-entries.service.ts:134-186 | In every interleaving of posts, reversals and engine entries the committed rows hold each counted line exactly once, in the row with the line's own fields. |
| `Interleaving.HistoryIsKept` | backend/prisma/migrations/20260827003900_phase2_11_rls_and_guards/migration.sql:495-531 | In every interleaving a committed entry keeps its lines and head, and a posted one can only become reversed. |
| `Interleaving.ReadIff` | backend/src/accounting/journal-entries/journal-entries.service.ts:230-236 | A transaction goes on after its read exactly when it finds the entry in the status its step starts from. |
| `Interleaving.UpdateIff` | backend/prisma/migrations/20260827005400_fix_reversed_entry_immutability/migration.sql:10-21 | Its update waits while another transaction holds the entry, and then goes through exactly when the trigger accepts the status as it is by then. |
| `Interleaving.CommitIff` | backend/src/accounting/accounting-engine.service.ts:268-291 | It commits exactly when it has updated its entry and counted all its lines. |
| `Interleaving.ReversalCommits` | backend/src/accounting/accounting-engine.service.ts:226-272 | A committed reversal is the mirror of its entry as committed, in the period, with the number and on the date it was given, and marks that entry alone. |
| `Interleaving.MoveIsForwardIff` | backend/src/accounting/journal-entries/journal-entries.service.ts:222-239 | A submit or approve moves an entry one step forward exactly when nobody moved it since it was read. |
| `Interleaving.PostIsForwardIff` | backend/src/accounting/journal-entries/journal-entries.service.ts:134-154 | A post that commits finds its entry not yet posted, and moves it one step forward exactly when it is still approved. |
| `Interleaving.DoubleReversalWithoutTrigger` | backend/src/accounting/accounting-engine.service.ts:205-212 | The status check in the service alone would let two reversals of one entry commit. |
| `Interleaving.SecondReversalAborts` | backend/prisma/migrations/20260827005400_fix_reversed_entry_immutability/migration.sql:16-18 | With the trigger the same interleaving ends with the second reversal aborted. |
| `Interleaving.StaleSubmitMovesBack` | backend/src/accounting/journal-entries/journal-entries.service.ts:230-239 | Before posting there is no such guard: a stale submit can take an approved entry back. |
| `Interleaving.StalePostSkipsApproval` | backend/src/accounting/journal-entries/journal-entries.service.ts:139-154 | So a stale post can post an entry that is only submitted by then. |
| `Numbering.NumberingService.Next` | backend/src/accounting/numbering.service.ts:19-47 | A call issues the number the row holds and advances it; a missing row starts at 1. |
| `Numbering.RenderInjective` | backend/src/accounting/numbering.service.ts:46 | Six-digit padding keeps different numbers different, also past six digits. |
| `Numbering.RenderIs` | backend/src/accounting/numbering.service.ts:46 | A rendered number is the prefix and decimal digits that read back as the number: six below a million, more without a leading zero from there on. |
| `Numbering.IssuedExactly` | backend/src/accounting/numbering.service.ts:26-43 | From a company without documents, under any interleaving with aborts, either no number of a series is committed or the committed ones are exactly 1, 2, ..., next - 1, without gap or duplicate. |
| `Numbering.TakeIssues` | backend/src/accounting/numbering.service.ts:26-44 | A call waits exactly while another transaction holds the row it needs; else it takes one more than it took last, or the committed next number, or 1. |
| `Numbering.ClashIff` | backend/prisma/migrations/20260827003754_phase2_11_schema/migration.sql:1009-1090 | A commit is refused by a unique number index exactly when the transaction created a sequence row that another one has created and committed first. |
| `Numbering.SecondCreatorAborts` | backend/src/accounting/numbering.service.ts:10-15 | When two transactions both create the row of a series, the second is rolled back whole once the first commits. |
| `Starter.Provision` | backend/src/accounting/company-provisioning.service.ts:21-60 | Provisioning adds the starter accounts and an active starter rule for every event type, and leaves every other company's rules as they are, edited or not. |
| `Starter.StarterRulesResolve` | backend/src/accounting/company-provisioning.data.ts:24-135 | Every control tag a starter rule names finds an account of the starter chart. |
| `Starter.StarterAccountIs` | backend/src/accounting/company-provisioning.data.ts:24-40 | Every starter account is active, each control tag is on an account of its type, and income and expense accounts have their category. |
| `Posting.RuleNet` | backend/src/accounting/accounting-engine.service.ts:98-119 | What a rule posts to any set of accounts is the signed sum of its stored amounts there; skipping zero amounts changes nothing. |
| `Posting.EventControlNet` | backend/src/accounting/accounting-engine.service.ts:300-310 | An event moves the accounts of a control tag by exactly its rule lines with that tag. |
| `Posting.EventPostsIff` | backend/src/accounting/accounting-engine.service.ts:57-127 | The engine accepts an event exactly when there is a rule, an open period on its date, an account for every non-zero line, and at most a cent of difference. |
| `Posting.EventOffNet` | backend/src/accounting/company-provisioning.data.ts:54-135 | An event whose rule does not name a control tag leaves the tagged accounts alone, and so does every event of another company. |
| `Balance.EventBalancedIff` | backend/src/accounting/accounting-engine.service.ts:98-127 | An entry made by a starter rule balances to the cent exactly when the document's stored amounts add up. |
| `Balance.StoringDrift` | backend/prisma/schema.prisma:719-720 | Rounding into the columns moves an entry's balance by at most half a cent per line, and not at all on whole cents. |
| `Balance.DraftImbalance` | backend/src/accounting/journal-entries/journal-entries.service.ts:49-58 | An accepted manual entry is at most half a cent per line and one cent off; in whole cents at most one, and exact if and only if its debits equal its credits. |
| `Balance.OneCentAccepted` | backend/src/accounting/journal-entries/journal-entries.service.ts:51 | On any chart with two accounts and any covered date, 1.01 against 1.00 is accepted. |
| `Balance.RunFair` | backend/src/accounting/journal-entries/journal-entries.service.ts:49-55 | In every run a company's document entries and their reversals balance exactly, and its manual ones stay within that bound, whatever other companies post. |
| `Reports.SummaryTotal` | backend/src/accounting/reports/reports.service.ts:28-37 | Any selection of summary rows adds up to the posted and reversed lines with those keys. |
| `Reports.TrialBalanceIsRaw` | backend/src/accounting/reports/reports.service.ts:26-40 | Every figure of the trial balance equals the one recomputed from raw lines in periods ending by the date. |
| `Reports.FigureIsLines` | backend/src/accounting/reports/reports.service.ts:28-37 | Each figure is the sum over posted and reversed lines on accounts with that code, name, type and category, of the company, in periods ending on or before the date. |
| `Reports.GrandTotalIsRaw` | backend/src/accounting/reports/reports.service.ts:26-40 | The sum of the balance column is the net of those raw lines, whatever the grouping. |
| `Reports.GrandTotalBound` | backend/src/accounting/reports/reports.service.ts:26-40 | With whole-cent amounts that sum is off by at most one cent per reported manual entry or reversal of one. |
| `Reports.SheetEquation` | backend/src/accounting/reports/reports.service.ts:42-83 | For any chart, assets less liabilities, equity and earnings is the trial balance sum, less nominal accounts without a P&L tag, plus sheet accounts with one. |
| `Reports.SheetIsLines` | backend/src/accounting/reports/reports.service.ts:57-81 | Each total from the raw lines: assets debit less credit, liabilities and equity credit less debit, equity with revenue less cost of goods sold less operating expense. |
| `Reports.BalancedIff` | backend/src/accounting/reports/reports.service.ts:80 | The `balanced` flag, exactly, for any chart. |
| `Reports.BalancesIffZero` | backend/src/accounting/reports/reports.service.ts:42-83 | When every account's kind and P&L tag agree, the sheet balances exactly when the trial balance sums to zero. |
| `Reports.ProvisionedTagsAgree` | backend/src/accounting/company-provisioning.data.ts:24-40 | They agree on the chart left by provisioning any number of companies. |
| `Reports.DocumentsOnlyBalance` | backend/src/accounting/reports/reports.service.ts:114-155 | Then a sheet that reports only starter-rule postings and their reversals balances. |
| `Reports.ShutRowsFrozen` | backend/src/accounting/accounting-engine.service.ts:85-89 | No transaction changes a summary row of a period that is not open. |
| `Reports.ClosedTrialBalanceFixed` | backend/src/accounting/fiscal-periods/fiscal-periods.service.ts:71-84 | While every period ending by a date stays closed or locked, no figure of the trial balance as of that date changes. |
| `ManagementInfo.ControlBalances` | backend/src/mis/mis.service.ts:134-155 | Every figure read from the control-balance map, present or defaulted, is debits less credits of the raw lines on the accounts with that tag in periods ending by the date. |
| `ManagementInfo.RunOwn` | backend/src/accounting/accounting-engine.service.ts:294-335 | In every run a document's entry, and its reversal, is on accounts of its own company. |
| `ManagementInfo.DashboardIsOpenItems` | backend/src/mis/mis.service.ts:33-35 | The dashboard's receivables and payables are the open items, to the cent, when manual entries and reversals leave the control accounts alone. |
| `Calendar.LeapYears` | backend/src/accounting/company-provisioning.service.ts:81-93 | Twelve months from January are 365 or 366 days, and 366 exactly in years divisible by 4 and not by 100, or by 400. |
| `Calendar.YearStart` | backend/src/accounting/company-provisioning.service.ts:81-93 | The first day of any year in closed form. |
| `Calendar.FourCenturies` | backend/src/accounting/company-provisioning.service.ts:81-93 | 400 years from any January are 146097 days. |
| `Calendar.MonthInYear` | backend/src/accounting/company-provisioning.service.ts:81-93 | The first day of each month, counted from the first of January. |
| `Calendar.YearIsItsMonths` | backend/src/accounting/company-provisioning.service.ts:62-93 | A fiscal year covers exactly the days of its twelve periods. |
| `Calendar.NewPeriod` | backend/src/accounting/fiscal-periods/fiscal-periods.service.ts:44-54 | The period built from the first day of a month and day 0 of the next is that whole month. |
| `Calendar.ExactlyOnePeriod` | backend/src/accounting/accounting-engine.service.ts:73-79 | The periods tile an unbroken stretch of days: each covered date lies in exactly one, the one the ledger finds, and no other date is covered. |
| `Calendar.LatestYear` | backend/src/accounting/fiscal-periods/fiscal-periods.service.ts:27-33 | The year that starts last is the last of the consecutive ones. |
| `Calendar.TilesExtend` | backend/src/accounting/fiscal-periods/fiscal-periods.service.ts:35-54 | A further year's months extend the tiling without gap or overlap. |
| `Calendar.FiscalCalendar.CreateNextFiscalYear` | backend/src/accounting/fiscal-periods/fiscal-periods.service.ts:25-69 | Creation adds the year after the latest one with its twelve months, or the clock's year on an empty calendar, and keeps the tiling. |
| `Calendar.FiscalCalendar.AddMonths` | backend/src/accounting/company-provisioning.service.ts:81-93 | The month loop adds the twelve months of the year in order. |
| `Calendar.FiscalCalendar.SetPeriodStatus` | backend/src/accounting/fiscal-periods/fiscal-periods.service.ts:71-96 | One period's status is overwritten, and the tiling stays. |
| `Stock.StockInTracks` | backend/src/inventory/inventory.service.ts:31-77 | A receipt keeps the balance rows equal to what replaying the move log gives. |
| `Stock.AdjustTracksIff` | backend/src/inventory/inventory.service.ts:127-172 | An adjustment does too exactly when the row exists, or its system quantity is zero, or nothing moves. |
| `Stock.OnHandIsSum` | backend/src/inventory/inventory.service.ts:39-74 | On-hand quantity is exactly the sum of the signed moves. |
| `Stock.ValuationDrift` | backend/src/inventory/inventory.service.ts:55-74 | For every log, quantity times average differs from the value of the moves, less what was dropped, by at most half a ten-thousandth for each unit on hand after each receipt. |
| `Stock.NonNegativeDrift` | backend/src/inventory/inventory.service.ts:39-171 | While on-hand stays non-negative nothing is dropped, so the averaging bound holds against the full value of the moves. |
| `Stock.ReceiptKeepsValueIff` | backend/src/inventory/inventory.service.ts:58-61 | A receipt stays within the averaging bound exactly when it leaves stock on hand, or the value before and the value received cancel. |
| `Stock.NegativeStockForgets` | backend/src/inventory/inventory.service.ts:61 | Below zero the plain bound fails: a receipt that leaves stock negative drops value. |
| `Inventory.InventoryService.RecordStockIn` | backend/src/inventory/inventory.service.ts:31-77 | The method appends one move, blends the row and returns the new average, or refuses a non-positive quantity. |
| `Inventory.InventoryService.RecordStockOut` | backend/src/inventory/inventory.service.ts:81-121 | The method draws at the current average and returns the cost, or refuses and changes nothing. |
| `Inventory.InventoryService.RecordAdjustment` | backend/src/inventory/inventory.service.ts:127-172 | The method applies the variance at the current average and returns its signed value. |
| `Drawing.DrawPassesIff` | backend/src/sales/deliveries.ts:125-142 | The line-by-line check passes exactly when quantities are positive and each product's lines together do not exceed on-hand. |
| `Drawing.DrawEffect` | backend/src/sales/deliveries.ts:125-142 | Success lowers each on-hand by exactly what was asked, leaves averages alone and costs the quantities at them. |
| `Drawing.DrawOrderIrrelevant` | backend/src/sales/deliveries.ts:125-142 | Any order of the lines passes with the same cost and the same stock left. |
| `Counting.CountEffect` | backend/src/inventory/stock-counts.ts:126-146 | Posting a count changes each on-hand by its recorded variances and leaves averages alone. |
| `Counting.CountValue` | backend/src/inventory/stock-counts.ts:126-146 | Increase less decrease is the summed value of the adjustment moves, and neither is negative. |
| `Counting.CountAmounts` | backend/src/inventory/stock-counts.ts:126-146 | The increase is what the lines find and the decrease what they miss, at the averages from before the count. |
| `Counting.BothSidesIff` | backend/src/accounting/company-provisioning.data.ts:122-126 | Each side is non-zero exactly when some line finds, or misses, value. |
| `StockLedger.BothSidesExample` | backend/src/inventory/stock-counts.ts:144-145 | A run that receives two products and counts them, finding 3.00 and missing 4.00: both sides of the entry are non-zero. |
| `StockLedger.CountReconcilesInRun` | backend/src/inventory/stock-counts.ts:76-89 | In every run a count of distinct products, posted any time after its creation, leaves each at its counted quantity plus the net of all moves in between, row or no row. |
| `StockLedger.RunSound` | backend/src/inventory/inventory.service.ts:31-172 | Between any two states of a run moves are only appended, rows never removed, counts keep their lines, and the balances equal the replayed log. |
| `StockLedger.ReceiveMoves` | backend/src/purchasing/goods-receipts.ts:133-149 | A receipt is taken in exactly when every quantity is positive, and records one move a line, in order, with the line's product, quantity and unit cost. |
| `StockLedger.RunReceived` | backend/src/purchasing/goods-receipts.ts:133-151 | In every run the receipt moves are worth quantity times unit cost over the lines of the posted receipts. |
| `StockLedger.ReceiptPostsIff` | backend/src/purchasing/goods-receipts.ts:125-151 | A receipt is posted exactly when it is a draft with positive quantities, and leaves the ledger alone. |
| `StockLedger.DeliveryPostsIff` | backend/src/sales/deliveries.ts:117-162 | A delivery is posted exactly when it is a draft, its quantities are positive and in stock, and the books allow its entry; the entry is on its date, debits cost of goods sold and credits Inventory for the rounded cost. |
| `StockLedger.StockRefusal` | backend/src/sales/deliveries.ts:117-142 | A stock document is refused because it is missing, else for its status; a receipt else for a quantity, a delivery else for its first line that is not positive or not in stock. |
| `StockLedger.CountPostsIff` | backend/src/inventory/stock-counts.ts:115-165 | A count is posted exactly when it is a draft and, if it moves value, the books allow its entry. |
| `StockLedger.CountBooks` | backend/src/inventory/stock-counts.ts:148-165 | A posted count adds an entry exactly when it moves value: on its date, Inventory up by what was found and down by what is missing, cost of goods sold the other way. |
| `StockLedger.DeliveryEntryNet` | backend/src/sales/deliveries.ts:144-157 | A delivery's entry lowers the Inventory accounts by the rounded cost. |
| `StockLedger.CountInventoryNet` | backend/src/inventory/stock-counts.ts:148-165 | A count moves the Inventory accounts by rounded increase less rounded decrease, and by nothing when it posts no entry. |
| `StockLedger.StockTiesToLedger` | backend/src/sales/deliveries.ts:125-157 | Over any run whose manual and reversing entries keep off the Inventory accounts, valuation less their balance is quantity times unit cost over the posted receipts, within the averaging bound, half a cent per delivery and one cent per count. |
| `StockLedger.SparedNet` | backend/src/accounting/company-provisioning.data.ts:54-120 | The documents of other services and companies leave the Inventory accounts alone. |
| `StockLedger.RunNamed` | backend/src/sales/deliveries.ts:144-162 | In every serial run a delivery is posted exactly when it names an entry, and exactly that entry, reversals apart, carries it as its source. |
| `StockLedger.StockTiesWhileNonNegative` | backend/src/inventory/stock-counts.ts:126-165 | The same without any dropped value while on-hand never goes below zero. |
| `StockDesk.Desk.PostReceipt` | backend/src/purchasing/goods-receipts.ts:125-162 | A draft receipt with positive quantities records a move for every line at the line's own unit cost and posts nothing to the ledger; any other is refused whole. |
| `StockDesk.Desk.PostDelivery` | backend/src/sales/deliveries.ts:117-174 | A draft delivery draws all its lines, posts their cost and names the entry; any refusal restores stock and ledger. |
| `StockDesk.Desk.CreateDelivery` | backend/src/sales/deliveries.ts:77-115 | A delivery is filed as a draft with its warehouse, date and lines that draws and posts nothing; deliveries and entries still name each other. |
| `StockDesk.Desk.CreateCount` | backend/src/inventory/stock-counts.ts:66-113 | Creation records product, on-hand of the moment and counted quantity for every line. |
| `StockDesk.Desk.PostCount` | backend/src/inventory/stock-counts.ts:115-179 | A draft count applies all variances and posts an entry when some value moved; a refusal restores everything. |
| `Subledger.PostedExactlyOnce` | backend/src/sales/sales-invoices.ts:155-185 | In every serial run an office document is posted exactly when it names an entry, and exactly that entry, reversals apart, carries it as its source, whatever stock documents and other companies post meanwhile. |
| `Subledger.RunNamed` | backend/src/payroll/payroll-runs.ts:164-194 | The same as an invariant of every run, for all document kinds together, depreciation batches included. |
| `Subledger.DocumentsEvolve` | backend/src/purchasing/supplier-invoices.ts:145-223 | No transaction changes a document but for what was paid on an invoice; its status follows the path of its kind, and a posted document keeps its entry. |
| `Subledger.PayAllPaid` | backend/src/sales/customer-receipts.ts:140-145 | Every invoice is paid by exactly the allocations that name it. |
| `Effects.RunPaid` | backend/src/purchasing/supplier-payments.ts:134-139 | In every serial run what is paid on an invoice is the sum of the posted allocations to it and of the posted notes that name it. |
| `Effects.DocumentNet` | backend/src/accounting/company-provisioning.data.ts:54-135 | What every kind of document moves on every control tag: its own amounts by its rule, and the accounts it chooses itself. |
| `Effects.ScheduleNet` | backend/src/assets/fixed-assets.ts:139-155 | Depreciation debits the expense account and credits the accumulated one, on any set of accounts. |
| `Effects.RunTold` | backend/src/payroll/payroll-runs.ts:164-194 | In every serial run the entry a posted document names is on the document's date, carries its party on every line, and moves every control tag by exactly the document's amounts. |
| `Effects.DocumentPostsIff` | backend/src/sales/sales-invoices.ts:155-185 | A document is posted exactly when it is approved, or a draft of a kind that needs no approval, and there is a rule, an open period on its date and an account for every amount. |
| `Effects.DocumentRefusal` | backend/src/sales/customer-receipts.ts:108-138 | A posting is refused because the document is missing, else for its status, else with the engine's reason. |
| `Effects.DepreciationPosts` | backend/src/assets/fixed-assets.ts:124-160 | A depreciation run posts exactly the draft schedules dated on or before the date, each with its own entry, and touches no other document. |
| `Effects.DepreciationIff` | backend/src/assets/fixed-assets.ts:124-165 | It is accepted exactly when something is due and the books allow every due schedule. |
| `TieOut.PostingNet` | backend/src/sales/customer-receipts.ts:124-138 | Posting a document moves the control accounts of its trade by exactly what it owes. |
| `TieOut.PostOpen` | backend/src/sales/credit-notes.ts:97-122 | Posting changes the open items of its trade by the same amount, through allocations, an invoice, or its own status. |
| `TieOut.RunSettled` | backend/src/purchasing/supplier-payments.ts:102-156 | In every serial run, stock documents and other companies included, the balance the documents leave on receivables, and on payables, is posted totals less paid amounts less posted notes without an invoice. |
| `TieOut.RunOff` | backend/src/accounting/company-provisioning.data.ts:54-135 | In every serial run the documents of the other trade, payroll, depreciation, stock and other companies leave the control accounts of a trade alone. |
| `TieOut.DocumentsBalance` | backend/src/sales/sales-invoices.ts:163-180 | Every document's entry balances to the cent, a zero-tax invoice included. |
| `TieOut.LedgerRun` | backend/src/accounting/accounting-engine.service.ts:47-51 | The ledger of any run of documents is the ledger of a run of sound ledger transactions, so the ledger theorems hold of it. |
| `TieOut.OfficeTrialBalance` | backend/src/accounting/reports/reports.service.ts:26-40 | In any run with the company's manual entries in whole cents its trial balance sums to at most a cent per reported manual entry or reversal of one. |
| `TieOut.ControlBalanceIsOpenItems` | backend/src/purchasing/debit-notes.ts:84-130 | When no manual entry or reversal moves the control accounts, their summary balance is the open items, to the cent. |
| `OfficeDesk.Desk.CreateInvoice` | backend/src/sales/sales-invoices.ts:87-145 | Creation stores the draft with the rounded line and tax sums, their total near the exact amount, nothing paid, and keeps documents, entries and tie-out consistent. |
| `OfficeDesk.Desk.CreateSettlement` | backend/src/sales/customer-receipts.ts:65-106 | A receipt or payment is stored as a draft for the sum of its allocations exactly when that is positive and every invoice it names is there. |
| `OfficeDesk.Desk.CreateNote` | backend/src/purchasing/debit-notes.ts:51-82 | A note is refused exactly when it names an invoice that does not exist; a draft note changes neither what is owed nor the journal, and documents, entries and tie-out stay consistent. |
| `OfficeDesk.Desk.CreatePayroll` | backend/src/payroll/payroll-runs.ts:68-142 | A run is stored with basic pay and allowances as gross, the deductions, and their difference, over the salary structures in effect; it is refused exactly when nobody has one. |
| `OfficeDesk.Desk.CreateAsset` | backend/src/assets/fixed-assets.ts:73-119 | An asset files its whole schedule, one draft a row with its date, amount and the two accounts. |
| `OfficeDesk.Desk.Transition` | backend/src/purchasing/supplier-invoices.ts:197-223 | Submit and approve succeed exactly for an invoice in the expected status, move it one step on its path, and change neither what is owed nor the tie-out. |
| `OfficeDesk.Desk.ApprovePayroll` | backend/src/payroll/payroll-runs.ts:144-162 | Approval succeeds exactly for a draft payroll run and posts nothing. |
| `OfficeDesk.Desk.Post` | backend/src/purchasing/supplier-payments.ts:102-156 | Posting succeeds exactly when the document is postable and the books allow it, writes the entry, pays each invoice what the document assigns to it and marks the document; a refusal changes nothing, and what tied out still does. |
| `OfficeDesk.Desk.PayAllocations` | backend/src/sales/customer-receipts.ts:140-145 | The allocation loop raises each invoice by the sum of the allocations that name it. |
| `OfficeDesk.Desk.RunDepreciation` | backend/src/assets/fixed-assets.ts:124-178 | A depreciation run posts every due schedule once, earliest first, or none of them. |
| `Invoicing.CurrentRate` | backend/src/accounting/tax-rate.util.ts:7-22 | The rate used has started by the date and not ended before it, both days included, and no other such rate starts later. |
| `Invoicing.RateIs` | backend/src/accounting/tax-rate.util.ts:13-21 | The percentage is that of such a rate, and zero when there is none. |
| `Invoicing.LineIs` | backend/src/sales/sales-invoices.ts:94-97 | A line's total is quantity times price, and its tax that total times the rate over 100, each rounded to the cent, halves upwards. |
| `Invoicing.InvoiceTotals` | backend/src/sales/sales-invoices.ts:90-130 | The loop's total is subtotal plus tax in whole cents and within 1 + r/200 cents a line of quantity times price times (100 + rate) / 100, for every bound r on the rates. |
| `Invoicing.TotalGap` | backend/src/purchasing/supplier-invoices.ts:88-131 | That bound for any lines and any rates. |
| `Invoicing.PayrollTotals` | backend/src/payroll/payroll-runs.ts:81-128 | Employees without a structure by the period end are skipped, a run without payslips is refused, and the totals are those of the structures in effect. |
| `Invoicing.StructureIs` | backend/src/payroll/payroll-runs.ts:88-92 | The salary structure used has started by the period end, and no other that has starts later. |
| `Invoicing.SlipsTotal` | backend/src/payroll/payroll-runs.ts:94-100 | Gross is basic pay plus allowances, net is that less deductions, added up over the payslips. |
| `FixedAssets.MonthlyIsHalfUp` | backend/src/accounting/tax-rate.util.ts:24-26 | The monthly amount in integer arithmetic is the program's rounding of the exact share. |
| `FixedAssets.CreateSchedule` | backend/src/assets/fixed-assets.ts:79-89 | The loop yields one row per month and the rows sum exactly to cost less residual value. |
| `FixedAssets.LastAmount` | backend/src/assets/fixed-assets.ts:82-84 | The last amount is within (n - 1)/2 cents of the exact share, and non-negative from n(n - 1)/2 cents up. |
| `FixedAssets.LastIs` | backend/src/assets/fixed-assets.ts:75-84 | The last amount in closed form, from the quotient and remainder of the depreciable amount by the months. |
| `FixedAssets.LastNotNegativeIff` | backend/src/assets/fixed-assets.ts:82-84 | Exactly when the last amount is not negative. |
| `FixedAssets.LastAmountCanBeNegative` | backend/src/assets/fixed-assets.ts:82-84 | 6 cents over 10 months fail that condition. |
| `FixedAssets.MonthEndIsLastDay` | backend/src/assets/fixed-assets.ts:85-87 | Row i falls on the last day of the i-th month from the month of acquisition. |
| `FixedAssets.RowsInDifferentPeriods` | backend/src/assets/fixed-assets.ts:85-88 | The dates rise and no two rows share an accounting period. |
| `Banking.BestMatch` | backend/src/banking/matching-engine.service.ts:51-67 | The match is the first invoice with the highest score, and there is none exactly when nothing scores. |
| `Banking.Suggest` | backend/src/banking/matching-engine.service.ts:27-36 | A suggestion names an existing invoice of the trade the sign of the amount points to. |
| `Banking.SuggestedIff` | backend/src/banking/matching-engine.service.ts:27-57 | A line gets a suggestion exactly when an open invoice of the side its sign points to has its exact amount outstanding or a party its description mentions. |
| `Banking.SuggestionIs` | backend/src/banking/matching-engine.service.ts:53-73 | The suggestion names such an invoice and its party, scores 70 for the exact amount and 30 for the party, and prefers the exact amount, and both over one. |
| `BankDesk.FindMatch` | backend/src/banking/matching-engine.service.ts:38-74 | The search loop returns that best match with its score. |
| `BankDesk.BankStatements.Import` | backend/src/banking/bank-statements.ts:81-138 | Import stores every line with its account, date and amount, suggested with the best match or unmatched, and changes no other. |
| `BankDesk.BankStatements.ApproveMatch` | backend/src/banking/bank-statements.ts:140-199 | Approval creates and posts a settlement and marks the line; each step that committed before a refusal stays. |
| `BankDesk.BankStatements.IgnoreLine` | backend/src/banking/bank-statements.ts:201-219 | Ignoring works from any status; the lines stay sound, and the matched entries still move each bank account by what its matched lines add up to. |
| `Banking.SettlementNet` | backend/src/sales/customer-receipts.ts:124-138 | A posted settlement moves its own bank account by its amount and no other account outside receivables and payables. |
| `Banking.SettlementPostsIff` | backend/src/sales/customer-receipts.ts:108-138 | A draft settlement is posted exactly when there is a rule, an open period, a control account of the trade and a bank account of the company. |
| `Banking.RunSound` | backend/src/banking/bank-statements.ts:140-199 | In every serial run a suggested invoice exists, no two lines name the same entry, and each named entry moves its line's amount on the line's bank account. |
| `Banking.ApprovalFiles` | backend/src/banking/bank-statements.ts:155-187 | A completed approval posts a settlement with the line's date, bank account and amount, for the suggested party, all allocated to the suggested invoice. |
| `Banking.MatchIsFinal` | backend/src/banking/bank-statements.ts:179-208 | A line keeps its account, date and amount, and an entry once matched stays matched whatever happens later. |
| `Banking.ApprovedOnce` | backend/src/banking/bank-statements.ts:148-150 | A line is approved at most once, and exactly when it names an entry. |
| `Banking.MatchedMovement` | backend/src/banking/bank-statements.ts:179-187 | The matched entries' net movement of a bank account is the sum of its matched lines' signed amounts, ignored since or not. |
| `Banking.ApprovalStrandsIff` | backend/src/banking/bank-statements.ts:53-59 | Approving a suggested line strands a draft settlement exactly when the books do not allow it to be posted, and changes nothing else then. |
| `Banking.StrandedDraftBooks` | backend/src/banking/bank-statements.ts:155-174 | Such a draft is posted on its own exactly when the books allow it by then, and moves the bank account without being matched to the line. |
| `Banking.StaleApprovalBooksTwice` | backend/src/banking/bank-statements.ts:140-150 | An approval that read the line before another ran books the amount a second time exactly when the other did, and the line names only the second entry. |
| `BankingExample.BookedTwice` | backend/src/banking/bank-statements.ts:140-174 | A book reached from an empty company on which two approvals book the same line twice. |
| `BankingExample.DraftStranded` | backend/src/banking/bank-statements.ts:155-164 | The same book with its period closed: approving strands a draft receipt. |

## Left out

- Binary floating point: amounts are exact reals until a column or `Math.round` rounds them.
- Profit and loss from a start date, the ledger listing and the drilldown: sums of other selections of the same rows, which `Reports.SummaryTotal` covers.
- Controllers, request validation beyond the checks modelled, authentication, permissions, row-level security and audit records: no money or stock state.
- Master data, quotations, orders, price lists, consolidation, management ratios, budgets and adapters: they would only add easy members.
- Currency codes, exchange rates, base-currency amounts, descriptions, timestamps and user names: stored but read by nothing modelled.
- Edits of accounts and rules after provisioning: the set-up is fixed during a run, and the theorems ask for starter rules of their own company only.
- The clock, the query that finds due schedules and the grouped report query: parameters, the last two with the property their SQL promises.
- Name matching on bank descriptions: a set of mentioned parties.
- Sub-cent amounts of allocations, notes and assets: whole cents, as their columns store them.
- What a transaction that created a sequence row reads after another has committed the same row: its own row in the model; its commit is refused either way.
- Years below 100, which `Date.UTC` reads differently.
- Concurrent posting of documents other than journal entries: nothing locks those rows, so their properties are stated for serial runs.
- A crash between the three transactions of a bank approval.
- Deleting or editing journal lines outside the services: no service does, and the line trigger (migration.sql:513-531) protects posted parents only, so line immutability is proved from the application's steps.
- Documents of several companies in one office: an office and a stock desk hold one company's documents; other companies' events and entries run through the same journal.
- The numbers of documents other than journal entries: taken from the same service, not stored in the document rows.
- Period checks and entry numbers in the concurrent model: dropping guards only adds runs to the ones covered.
- The cancelled status the architecture mentions: no service sets it.
