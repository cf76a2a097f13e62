# Finance dashboard core in Dafny

This project models four screens of a Brazilian small-business finance dashboard. It proves
properties of each model.

- **Fluxo de caixa** (cash flow). Realised payments, receipts and transfers between bank
  accounts are merged into one dated ledger. Open payables and receivables inside the period
  become projected lines. A what-if scenario (single, installment or recurring items) becomes
  simulated lines. The screen then shows the opening balance (*saldo anterior*), the KPIs,
  the statement (*extrato*) with its running balance and the day-by-day balance series. The
  what-if session (current scenario, saved scenarios, comparison scenario) is a class.
- **Relatórios** (reports). It covers:
  - receivable filtering and the portfolio position;
  - overdue ageing in four buckets (*inadimplência* for receivables, *análise de atraso* for
    payables);
  - month-by-month forecasts of receipts and disbursements;
  - the chart-of-accounts tree used for the cash-flow statement (post entries, roll totals up
    to parents, link children).
- **Notificações** (notifications). It covers:
  - due-soon, due-today and overdue alerts for payables and receivables, created at most once
    per (related document, type);
  - the sidebar (hide cleared items, pinned first then newest, unread indicator, bulk clear,
    pin/important/read toggles);
  - the notifications page (search, status and type filters, grouping by date, mark all read,
    delete).
- **Movimentação bancária** (bank ledger). It covers:
  - the opening balance and the period list of an account;
  - the KPIs and the running-balance table;
  - the action buttons;
  - batch reconciliation (*conciliação*);
  - the reversal (*estorno*) of a movement. A reversal deletes the movement, marks the original
    payment or receipt as reversed, appends an "Estorno" history record and reopens the payable or
    receivable with recomputed totals, balance and status.

How the source's values are represented:
- **Amounts** are integer cents (`int`).
- **Dates** are ISO `YYYY-MM-DD` strings. They are compared with an explicit lexicographic
  order, as JavaScript compares strings (`Common.Less`).
- **Day counts** (days overdue, days until due) come from `Math.ceil` over millisecond
  differences in the source. Here they are function parameters.
- **Fields read through `x || 0`** are `int`s in which 0 stands for "absent".
- **Sorting**: the source uses `Array.prototype.sort`, a stable sort. It is modelled by a
  stable insertion sort over a total preorder (`Common.Sort`).
- **The Firestore document store** is one of two things:
  - class fields holding maps (`Notifications.NotificationStore`, `BankMovements.BankStore`);
  - a `Ledger` value transformed by a function.
- **Batched writes and `runTransaction`** are all-or-nothing. An update of a missing document
  fails the whole batch.

Module layout:
- `common.dfy`: string order, `Option`/`Result`, sums, filters and the stable sort.
- `records.dfy`: the stored documents (titles, history records, bank accounts, chart of
  accounts, transfers).
- `cashflow.dfy`, `reports.dfy`, `notifications.dfy`, `bankmovements.dfy`: one module per
  screen.

## Model

| member | source | states |
|---|---|---|
| CashFlow.PaymentLines | fluxo-de-caixa.js:310-338 | every statement line is a payment line, and a line is present iff it comes from a non-reversed, non-"Estorno" payment whose payable was found |
| CashFlow.ReceiptLines | fluxo-de-caixa.js:340-368 | the same for receipts: exactly the kept receipts whose receivable was found, each as a receipt line |
| CashFlow.TransferLines | fluxo-de-caixa.js:370-388 | one transfer line per transfer, in order |
| CashFlow.Ledger | fluxo-de-caixa.js:302-391 | the unified ledger is a permutation of payment, receipt and transfer lines and is sorted by date |
| Common.SortStable | fluxo-de-caixa.js:390 | the comparator sort is stable: for any element, the elements the comparator ties with it appear in the result in their input order |
| CashFlow.CollectPayments | fluxo-de-caixa.js:310-338 | the payment loop yields exactly the specified payment lines |
| CashFlow.CollectReceipts | fluxo-de-caixa.js:340-368 | the receipt loop yields exactly the specified receipt lines |
| CashFlow.CollectTransfers | fluxo-de-caixa.js:370-388 | the transfer loop yields exactly the specified transfer lines |
| CashFlow.EnrichAndUnify | fluxo-de-caixa.js:302-391 | the enrichment procedure returns the sorted unified ledger |
| CashFlow.ReversedPaymentNoLine | fluxo-de-caixa.js:312 | a reversed payment never appears as a statement line |
| CashFlow.ReversedReceiptNoLine | fluxo-de-caixa.js:342 | a reversed receipt never appears as a statement line |
| CashFlow.LedgerLineSource | fluxo-de-caixa.js:302-391 | each ledger line of a given kind comes from the matching source collection |
| CashFlow.ReversedNeverInLedger | fluxo-de-caixa.js:310-368 | no reversed payment or receipt reaches the unified ledger |
| CashFlow.ProjectedPayable | fluxo-de-caixa.js:104-126 | an open payable projects an unassigned, unreconciled outflow on its due date, of its remaining balance or else its original value |
| CashFlow.ProjectedReceivable | fluxo-de-caixa.js:131-154 | an open receivable projects an unassigned, unreconciled inflow on its due date, of its pending balance or else its original value |
| CashFlow.ProjectedPayablesMeaning | fluxo-de-caixa.js:104-126 | a projected payable line exists iff some payable is pending, overdue or partly paid (a missing status counts as pending) and due inside the period |
| CashFlow.ProjectedReceivablesMeaning | fluxo-de-caixa.js:131-154 | a projected receivable line exists iff some receivable is pending, overdue or partly received and due inside the period |
| CashFlow.FetchProjected | fluxo-de-caixa.js:95-157 | the fetch loops return the projected payables followed by the projected receivables |
| CashFlow.ApplyFilters | fluxo-de-caixa.js:393-414 | the result keeps input order and holds exactly the lines matching the account and reconciliation filters; with both filters "todas" nothing is removed |
| CashFlow.ProjectedDroppedByAccount | fluxo-de-caixa.js:393-414 | choosing one bank account removes every projected line |
| CashFlow.CalculateKpis | fluxo-de-caixa.js:416-437 | inflows and outflows are the per-line sums for the account filter; net result = inflows − outflows; final balance = opening + net |
| CashFlow.TransfersIgnoredUnderTodas | fluxo-de-caixa.js:416-437 | with all accounts selected, transfers contribute nothing to inflows or outflows |
| CashFlow.TransferLegs | fluxo-de-caixa.js:416-437 | for one account, a transfer counts as an inflow when the account is the destination and as an outflow when it is the origin |
| CashFlow.FindAccount | fluxo-de-caixa.js:1406-1407 | returns the first account with the id, or None iff no account has it |
| CashFlow.HistoryBefore | fluxo-de-caixa.js:290-300 | keeps exactly the history records dated strictly before the start (all of them when there is no start) |
| CashFlow.TransfersBefore | fluxo-de-caixa.js:290-300 | keeps exactly the transfers dated strictly before the start |
| CashFlow.SumSaldoInicial | fluxo-de-caixa.js:252-262 | the loop returns the sum of the accounts' opening balances |
| CashFlow.AddEarlierEffects | fluxo-de-caixa.js:275-285 | the loop adds each earlier line's effect on the selected account(s) |
| CashFlow.CalculateSaldoAnterior | fluxo-de-caixa.js:250-288 | the opening balance equals the specified opening balance: accounts' initial balance plus the effects of all earlier lines |
| CashFlow.OpeningEffectSplit | fluxo-de-caixa.js:275-285 | earlier effects = net of non-transfer lines, plus the transfer legs when one account is chosen |
| CashFlow.OpeningEffectIsKpiNet | fluxo-de-caixa.js:275-285 | an earlier line moves the opening balance by exactly its KPI inflow minus its KPI outflow |
| CashFlow.HistoryWithin | fluxo-de-caixa.js:290-300 | keeps exactly the history records dated in the half-open window [from, to) |
| CashFlow.TransfersWithin | fluxo-de-caixa.js:290-300 | keeps exactly the transfers dated in the half-open window [from, to) |
| CashFlow.PaymentLinesSum | fluxo-de-caixa.js:310-338 | a sum over the payment lines is a sum over the kept payment records |
| CashFlow.ReceiptLinesSum | fluxo-de-caixa.js:340-368 | a sum over the receipt lines is a sum over the kept receipt records |
| CashFlow.TransferLinesSum | fluxo-de-caixa.js:370-388 | a sum over the transfer lines is a sum over the transfers |
| CashFlow.LedgerSum | fluxo-de-caixa.js:302-391 | sorting the unified ledger by date does not change any sum over it |
| CashFlow.FilteredLedgerEffect | fluxo-de-caixa.js:271-285 | the opening balance's sum over the account-filtered ledger is a sum over all records |
| CashFlow.OpeningBalanceAdvances | fluxo-de-caixa.js:250-288 | opening balances are consistent: the balance at a later start is the balance at an earlier start plus the KPI inflows and minus the KPI outflows of the lines dated in between |
| CashFlow.StatementRowsBalances | fluxo-de-caixa.js:464-476 | each statement row shows the line's amounts for the account, and the first balance is opening + inflow − outflow |
| CashFlow.StatementRowsAreRenderedLines | fluxo-de-caixa.js:464-476 | the rows are exactly the lines that have an amount for the account, in order |
| CashFlow.RenderExtrato | fluxo-de-caixa.js:450-496 | the statement loop produces the specified rows with their running balances |
| CashFlow.StatementEndsAtSaldoFinal | fluxo-de-caixa.js:450-496 | for ledgers without self-transfers, which the transfer form refuses (`SubmittedTransferNotSelf`), the statement's last running balance equals opening + KPI inflows − KPI outflows |
| CashFlow.RowMatchesKpi | fluxo-de-caixa.js:464-476 | a line with no row contributes nothing to the KPIs; a rendered row's amounts are the line's KPI amounts |
| CashFlow.LedgerTransfersWellFormed | fluxo-de-caixa.js:370-388 | transfer lines carry no direct inflow or outflow amount |
| CashFlow.HistoryBetween | fluxo-de-caixa.js:290-300 | keeps exactly the history records dated inside the inclusive period |
| CashFlow.TransfersBetween | fluxo-de-caixa.js:290-300 | keeps exactly the transfers dated inside the inclusive period |
| CashFlow.ScenarioLines | fluxo-de-caixa.js:200-228 | one simulated (or comparison) line per what-if item, in order |
| CashFlow.ScenarioLineIsUnassigned | fluxo-de-caixa.js:200-228 | a simulated line is not a transfer and has no account and no reconciliation state |
| CashFlow.ScenarioLinesHiddenByFilters | fluxo-de-caixa.js:233 | an account or reconciliation filter removes every simulated line |
| CashFlow.PeriodLines | fluxo-de-caixa.js:200-230 | the period's lines are a permutation of realised, projected, simulated and comparison lines, sorted by date |
| CashFlow.CalculateCashFlow | fluxo-de-caixa.js:159-248 | no view without both dates, none either when realised and projected lines are both hidden, otherwise the opening balance, filtered lines, KPIs and statement as specified |
| CashFlow.DaysOf | fluxo-de-caixa.js:630-654 | the chart's days are exactly the non-empty dates of the lines |
| CashFlow.ChangesOnQuietDay | fluxo-de-caixa.js:630-652 | a day with no line has no change |
| CashFlow.CumulativeIsPrefixTotal | fluxo-de-caixa.js:661-688 | each running balance is the opening balance plus the total of the changes up to that day |
| CashFlow.RealizadoSeriesAt | fluxo-de-caixa.js:661-688 | the realised series at day i is the opening balance plus the realised changes up to day i |
| CashFlow.SimuladoSeriesAt | fluxo-de-caixa.js:661-688 | the simulated series at day i is the base series plus that day's simulated change |
| CashFlow.AggregateByDay | fluxo-de-caixa.js:630-652 | the per-day map holds, for every date, the realised, projected, simulated and comparison changes, keyed without duplicates |
| CashFlow.SeriesUpToFollows | fluxo-de-caixa.js:661-688 | the folded series satisfy the running-balance recurrences day by day |
| CashFlow.RunningSeries | fluxo-de-caixa.js:661-688 | the running-balance loop produces the specified series |
| CashFlow.ProcessWhatIfSeries | fluxo-de-caixa.js:625-691 | the chart covers exactly the dates of the lines in strictly increasing order, and each series follows its recurrence |
| CashFlow.NoScenarioNoSimulatedChange | fluxo-de-caixa.js:630-652 | without what-if lines the simulated and comparison changes are zero |
| CashFlow.RecurrenceMultiplier | fluxo-de-caixa.js:1611-1619 | 2, 3, 6 or 12 for bimonthly, quarterly, half-yearly and yearly; 1 for any other frequency |
| CashFlow.RoundDiv | fluxo-de-caixa.js:1463 | the quotient is rounded half up, as Math.round does |
| CashFlow.InstallmentValuesAsWritten | fluxo-de-caixa.js:1459-1475 | the installments as written: n copies of the rounded quotient |
| CashFlow.InstallmentsAsWrittenLoseCents | fluxo-de-caixa.js:1463 | 100 cents in 3 installments sums to 99 |
| CashFlow.InstallmentValues | fluxo-de-caixa.js:1459-1475 | corrected: the first n−1 installments are the rounded quotient and all n sum exactly to the total |
| CashFlow.InstallmentsAgreeOnExactDivision | fluxo-de-caixa.js:1459-1475 | on an exact division the corrected and as-written installments coincide |
| CashFlow.Installments | fluxo-de-caixa.js:1459-1475 | corrected: the installment loop (finding 1) builds n items whose values sum to the total |
| CashFlow.Recurrences | fluxo-de-caixa.js:1476-1494 | the recurrence loop builds n items, each the specified recurrence item |
| CashFlow.ExpandWhatIf | fluxo-de-caixa.js:1431-1503 | corrected: with the corrected installments (finding 1), each validation error occurs exactly under its condition; on success the specified single, installment or recurring items |
| CashFlow.SubmitTransfer | fluxo-de-caixa.js:1388-1428 | same-account, missing-field and unknown-account errors exactly under their conditions; on success a transfer between the chosen accounts with their names |
| CashFlow.SubmittedTransferNotSelf | fluxo-de-caixa.js:1396-1403 | a successfully submitted transfer never goes from an account to itself |
| CashFlow.FindScenario | fluxo-de-caixa.js:1585-1591 | returns the first saved scenario with the id, or None iff none has it |
| CashFlow.WhatIfSession.constructor | fluxo-de-caixa.js:38-53 | the session starts with an empty scenario, nothing saved and no comparison |
| CashFlow.WhatIfSession.Submit | fluxo-de-caixa.js:1431-1503 | corrected: with the corrected installments (finding 1), each validation error occurs exactly under its condition and leaves the scenario unchanged; on success the form's single, installment (summing to the total) or recurring items are appended to the scenario; the saved list and comparison are untouched |
| CashFlow.WhatIfSession.RemoveItem | fluxo-de-caixa.js:1529-1537 | removes exactly the items with the id and nothing else |
| CashFlow.WhatIfSession.ClearScenario | fluxo-de-caixa.js:1539-1543 | empties the scenario and keeps the saved list |
| CashFlow.WhatIfSession.Save | fluxo-de-caixa.js:1545-1555 | appends a saved copy only when a name is given and the scenario is non-empty |
| CashFlow.WhatIfSession.Load | fluxo-de-caixa.js:1585-1591 | loads the found scenario's items, or changes nothing |
| CashFlow.WhatIfSession.DeleteSaved | fluxo-de-caixa.js:1592-1594 | removes exactly the saved scenarios with the id |
| CashFlow.WhatIfSession.SetComparison | fluxo-de-caixa.js:1595-1608 | checking a found scenario makes it the comparison; anything else clears it |
| Reports.ReceivablesBase | relatorios.js:722-724 | keeps order and removes exactly the split ("Desdobrado") titles |
| Reports.PosicaoCarteira | relatorios.js:89-94 | "todos" keeps every title; otherwise exactly the titles with that status |
| Reports.WithStatusIn | relatorios.js:95-102 | exactly the titles whose status is in the set, in order |
| Reports.FilterPayables | relatorios.js:374-378 | exactly the payables matching the beneficiary and status filters; "todos" on both keeps everything |
| Reports.WithDays | relatorios.js:125-135 | pairs each title with its days overdue, in order |
| Reports.Overdue | relatorios.js:460-470 | exactly the titles due before today with a counted status, each with its days overdue |
| Reports.BucketOf | relatorios.js:141-163 | the four ageing buckets ≤30, 31–60, 61–90 and >90 partition the integers |
| Reports.BucketItemsAreFilter | relatorios.js:141-163 | a bucket holds exactly the items whose days fall in its range |
| Reports.BucketsPartitionSum | relatorios.js:166 | summed over the four buckets, the bucket totals equal the total over all items |
| Reports.DistributeInadimplencia | relatorios.js:121-214 | each bucket holds its items and pending total; the grand total is the pending sum of all items |
| Reports.DistributeAtraso | relatorios.js:456-547 | each bucket's total is its items' balance; "todos" holds every item and the overall balance |
| Reports.CardRows | relatorios.js:800-831 | "todos" shows every row; "30" and "60" show their buckets; "91+" shows all rows over 60 days |
| Reports.MonthKey | relatorios.js:283 | the month key is the date's year-month prefix |
| Reports.MonthKeyMonotone | relatorios.js:283 | month keys preserve date order |
| Reports.MonthItemsMeaning | relatorios.js:552-560 | a month appears iff some counted title falls in it, and holds exactly those titles |
| Reports.UnmetMonthIsEmpty | relatorios.js:552-560 | a month that never appears has no titles |
| Reports.GroupAllMeaning | relatorios.js:552-560 | every month group holds its titles and their summed balance |
| Reports.AccumulateMonths | relatorios.js:552-560 | the grouping loop produces the specified month groups, keyed without duplicates |
| Reports.GroupByMonth | relatorios.js:549-575 | month groups as specified, with the months listed once each in increasing order |
| Reports.PrevisaoDesembolsos | relatorios.js:549-575 | the disbursement forecast groups every payable by due month, months in increasing order |
| Reports.ForecastAsWrittenSkipsDueToday | relatorios.js:263-268 | as written, a receivable due today is excluded after midnight, although the overdue report does not count it either |
| Reports.ForecastAndAgingPartition | relatorios.js:262-300 | corrected: every dated title is either overdue or in the forecast, never both |
| Reports.PrevisaoRecebimentos | relatorios.js:262-300 | corrected: the receipt forecast groups the receivables due from today on by month, months in increasing order |
| Reports.CodesInOrderMeaning | relatorios.js:865-872 | the tree's codes are listed once each, and each code keeps the last account declared with it |
| Reports.InitTree | relatorios.js:865-872 | the initial tree has one empty node per account code |
| Reports.OwnItemsMeaning | relatorios.js:875-882 | a node's own entries are exactly the entries posted to its code |
| Reports.PostAllMeaning | relatorios.js:875-882 | after posting, each node holds its own entries and their total |
| Reports.PostLancamentos | relatorios.js:875-882 | the posting loop produces the specified tree |
| Reports.RollAllMeaning | relatorios.js:885-891 | rolling up longest codes first keeps the tree's shape and adds each child's final total to its parent |
| Reports.RollUp | relatorios.js:885-891 | the roll-up loop produces the specified tree |
| Reports.LinkAllMeaning | relatorios.js:894-901 | after linking, children and roots are exactly as the parent codes say |
| Reports.LinkChildren | relatorios.js:894-901 | the linking loop produces the specified children and roots |
| Reports.ObjectKeyOrder | relatorios.js:885 | the codes as `Object.keys` lists them: the same codes, array-index codes first in ascending numeric order, the other codes in creation order |
| Reports.ObjectKeyOrderExample | relatorios.js:885 | codes created as "2", "1", "1.1" are listed "1", "2", "1.1" |
| Reports.ObjectKeyOrderWithoutIndices | relatorios.js:885 | when no code is an array index, the listing order is the creation order |
| Reports.BuildCashFlowTree | relatorios.js:861-904 | one node per code with its account and own entries; children and roots by parent code, listed in `Object.values` order; when children have longer codes each total is own entries plus the children's totals |
| Reports.TreePlacement | relatorios.js:894-901 | an account is a root iff it has no parent code and a child iff its parent code names the node; an orphan is neither |
| Notifications.CreateMeaning | notifications.js:26-39 | a document is added iff none exists for (related id, type); the new one is unread and has the data; existing ones are untouched |
| Notifications.CreateWellFormed | notifications.js:26-39 | creation keeps at most one notification per (related id, type) |
| Notifications.CreateKeys | notifications.js:13-39 | after creation a key is present iff it was before or is the new data's key |
| Notifications.CreateTwice | notifications.js:26-39 | creating the same notification twice equals creating it once |
| Notifications.CreateAllWellFormed | notifications.js:26-39 | creating a batch keeps uniqueness and leaves existing documents untouched |
| Notifications.CreateAllKeys | notifications.js:26-39 | after a batch a key is present iff it was before or belongs to some item |
| Notifications.CreateAllPresent | notifications.js:26-39 | when every item's key already exists, a batch changes nothing |
| Notifications.CreateAllIdempotent | notifications.js:190-194 | re-running the periodic check on the same titles creates nothing new |
| Notifications.CreateAllSnoc | notifications.js:26-39 | creating a batch is creating its items one after another |
| Notifications.CreateAllAppend | notifications.js:26-39 | creating two batches in turn equals creating their concatenation |
| Notifications.Classification | notifications.js:47-183 | a due-soon alert exists iff the title is due within three days with a relevant status, and is "due today" iff zero days remain; an overdue alert exists iff the status is "Vencido" |
| Notifications.DueSoonAlertsMeaning | notifications.js:63-93 | the due-soon alerts are exactly the alerts of some title |
| Notifications.OverdueAlertsMeaning | notifications.js:99-110 | the overdue alerts are exactly the alerts of some title |
| Notifications.CheckCovers | notifications.js:47-111 | after a check each qualifying title has its due-soon and overdue notifications |
| Notifications.CoversDueSoon | notifications.js:58-93 | after a check each title due soon has its due-soon notification |
| Notifications.CoversOverdue | notifications.js:95-110 | after a check each overdue title has its overdue notification |
| Notifications.UpdateAllMeaning | notifications.js:572-576 | a batch update changes exactly the listed documents, keeping the key set |
| Notifications.UpdateAllWellFormed | notifications.js:572-576 | batch updates keep one notification per key |
| Notifications.ClearMeaning | notifications.js:226-253 | clearing hides exactly the visible notifications allowed by the pinned/important choices and changes nothing else |
| Notifications.ClearTargetIds | notifications.js:233-244 | a document is in the clear batch iff it is in the sidebar, not yet cleared, and allowed by the checkboxes |
| Notifications.ClearSelection | notifications.js:230-244 | the selection loop returns the target ids and their count |
| Notifications.SidebarLeIsTotalPreorder | notifications.js:326-330 | pinned-first, newest-first is a total preorder |
| Notifications.SidebarOrderMeaning | notifications.js:314-330 | the sidebar shows a permutation of the uncleared notifications, pinned first, newest first within each group |
| Notifications.RenderSidebar | notifications.js:307-372 | shows the sidebar order; the unread count counts visible unread notifications; the indicator is on iff the count is positive |
| Notifications.CountUnread | notifications.js:332-336 | the loop counts the unread shown notifications |
| Notifications.UnreadCountMeaning | notifications.js:332-371 | counting over the sorted sidebar equals counting the visible unread notifications |
| Notifications.FindById | notifications.js:262 | returns a sidebar notification with the id, or None iff none has it |
| Notifications.ClickMeaning | notifications.js:257-282 | on a sidebar showing the stored documents, a click on an id it does not show changes nothing; otherwise pin and important buttons toggle their flag, the link marks it read, and no other document changes |
| Notifications.FoundIsStored | notifications.js:261 | on such a sidebar, `find` succeeds iff the id is shown, and returns the stored document |
| Notifications.ClickTwice | notifications.js:257-282 | clicking the pin or important button twice, the sidebar refreshed in between, restores the documents |
| Notifications.LowerIdempotent | notifications.js:499-504 | lower-casing twice equals lower-casing once |
| Notifications.FiltersMeaning | notifications.js:503-508 | a notification is listed iff its message contains the search text ignoring case and it matches the status and type filters |
| Notifications.FiltersDefault | notifications.js:503-508 | with no search and "all" filters every notification is listed |
| Notifications.FiltersIgnoreCase | notifications.js:499-504 | the search is insensitive to the case of the query |
| Notifications.FiltersReadUnreadSplit | notifications.js:505 | "read" plus "unread" results count as many as "all" |
| Notifications.GroupOfMonotone | notifications.js:393-415 | an older day never falls into a more recent date group |
| Notifications.GroupOfFuture | notifications.js:393-415 | with a non-negative weekday, a day after today falls into "Esta Semana" |
| Notifications.GroupedPartition | notifications.js:384-419 | the date groups together hold exactly the notifications |
| Notifications.GroupByDate | notifications.js:384-419 | the grouping loop produces the specified groups |
| Notifications.ApplyAndGroup | notifications.js:498-512 | the page groups exactly the filtered notifications |
| Notifications.MarkAllReadMeaning | notifications.js:566-576 | marking all read sets every notification read and changes exactly the unread ones |
| Notifications.NotificationStore.CreateNotification | notifications.js:26-39 | the store becomes the specified creation, keeping uniqueness |
| Notifications.NotificationStore.CheckContas | notifications.js:190-194 | one check creates the due-soon and overdue alerts of one side |
| Notifications.NotificationStore.CreateDueSoon | notifications.js:58-93 | the due-soon loop creates the due-soon alerts |
| Notifications.NotificationStore.CreateOverdue | notifications.js:95-110 | the overdue loop creates the overdue alerts |
| Notifications.PayableAmount | notifications.js:72 | `valorSaldo ?? valorOriginal ?? 0`: the stored balance whenever there is one, the original amount otherwise |
| Notifications.PayableAmountKeepsZero | notifications.js:72 | a stored zero balance is shown as 0, where `||` would show the original amount |
| Notifications.PayableAlertAmount | notifications.js:72-110 | the due-today and overdue payable alerts show the stored balance, even 0, or else the original amount |
| Notifications.NotificationStore.CheckContasAPagar | notifications.js:47-111 | the store becomes the creation, in order, of the payables' due-soon alerts and then their overdue alerts |
| Notifications.NotificationStore.CheckContasAReceber | notifications.js:119-183 | checks the receivables |
| Notifications.NotificationStore.CommitBatch | notifications.js:572-585 | the batch commits iff every document exists, and then applies all updates; otherwise nothing changes |
| Notifications.NotificationStore.ClearSidebar | notifications.js:226-253 | counts the targets; commits only when there is one and all exist |
| Notifications.NotificationStore.MarkAllRead | notifications.js:564-586 | collects the unread ids; with none nothing is written, otherwise all become read or nothing changes |
| Notifications.NotificationStore.DeleteNotification | notifications.js:592-609 | when confirmed the document is removed from the store and the page list; otherwise nothing changes |
| Notifications.NotificationStore.HandleItemClick | notifications.js:257-282 | the store changes exactly as the click specifies |
| BankMovements.SaldoAnterior | movimentacao-bancaria.js:79-86 | the opening balance is the initial balance plus the non-reversed movements before the period start; without a start it is the initial balance |
| BankMovements.PeriodoMeaning | movimentacao-bancaria.js:89-93 | the period list is a permutation of the movements inside the bounds, ordered by date and then by creation time |
| BankMovements.PeriodKpis | movimentacao-bancaria.js:96-109 | the loop returns the sums of inflows, outflows and unreconciled amounts |
| BankMovements.KpisMeaning | movimentacao-bancaria.js:96-109 | inflows ≥ 0, outflows ≤ 0, their sum is the period's net, and the amount to reconcile is the net of the unreconciled movements |
| BankMovements.RenderMovimentacoes | movimentacao-bancaria.js:125-166 | one row per movement, each with its running balance |
| BankMovements.BalanceMeaning | movimentacao-bancaria.js:133-143 | each running balance adds the movement's value unless it is reversed, and the last one is the opening balance plus the period's net |
| BankMovements.ProcessAndRender | movimentacao-bancaria.js:68-123 | the opening balance, period list, KPIs and rows are the specified ones, and the last row's balance is the final balance |
| BankMovements.SaldoFinalMeaning | movimentacao-bancaria.js:79-109 | opening balance plus the period's net equals the initial balance plus every movement up to the period end |
| BankMovements.AnyMeaning | movimentacao-bancaria.js:197-199 | `some` holds iff some selected movement satisfies the predicate |
| BankMovements.ActionButtons | movimentacao-bancaria.js:185-204 | all disabled with no selection; reconcile enabled iff all are unreconciled and none reversed; undo iff all reconciled and none reversed; reverse iff exactly one non-reversed; never reconcile and undo at once |
| BankMovements.FindMovement | movimentacao-bancaria.js:196 | returns a loaded movement with the id, or None iff none has it |
| BankMovements.SelectedMovements | movimentacao-bancaria.js:196 | maps each selected id to the movement `find` returns for it, and fails iff some id is not loaded |
| BankMovements.UpdateActionButtons | movimentacao-bancaria.js:185-204 | no selection disables everything; with all ids found, the buttons are the action rule applied to the found movements (so reverse is enabled iff one non-reversed movement is selected, and reconcile and undo are never both enabled); when one of the three scans reaches an unlisted id before a match the property read throws and the buttons keep their state; when an id is unlisted but every scan stops before it, all three buttons are disabled |
| BankMovements.ScanSomeThrows | movimentacao-bancaria.js:196-199 | a `some` scan over the looked-up movements throws iff a missing entry comes before every movement that passes |
| BankMovements.ScanSomeFalse | movimentacao-bancaria.js:197-199 | a scan that finds no match has read every entry, each present and failing the test |
| BankMovements.ScanSomeFound | movimentacao-bancaria.js:196-199 | with every id found, the scan is `some` over the found movements |
| BankMovements.UpdateActionButtonsShortCircuit | movimentacao-bancaria.js:196-203 | ids "a" (reconciled and reversed), "b" (unreconciled) and an unlisted "x": no scan reaches "x" and all three buttons are disabled |
| BankMovements.ReconcileMeaning | movimentacao-bancaria.js:230-234 | corrected: for the corrected `Reconcile` (finding 3), reconciling sets the flag, date and user; undoing clears date and user; nothing else changes |
| BankMovements.ReconcileAsWrittenIgnoresUser | movimentacao-bancaria.js:233 | as written the record never names the signed-in user; the corrected update names them |
| BankMovements.ReconcileAllIdempotent | movimentacao-bancaria.js:227-235 | corrected: with the corrected `Reconcile` (finding 3), applying the same batch twice equals applying it once |
| BankMovements.ReconcileThenUndo | movimentacao-bancaria.js:227-235 | corrected: with the corrected `Reconcile` (finding 3), reconciling then undoing leaves each selected movement unreconciled with no date and no user |
| BankMovements.ReconcileIdempotent | movimentacao-bancaria.js:230-234 | corrected: with the corrected `Reconcile` (finding 3), reconciling a movement twice equals reconciling it once |
| BankMovements.StageConciliacao | movimentacao-bancaria.js:227-235 | corrected: with the corrected `Reconcile` (finding 3), the staging loop reports a missing document iff some id is absent, else stages the batch |
| BankMovements.EstornoRecord | movimentacao-bancaria.js:305-314 | the new history record is an unreconciled, non-reversed "Estorno" dated today carrying the reversed amounts |
| BankMovements.ReopenPayable | movimentacao-bancaria.js:320-326 | the totals drop by the reversed amounts, the balance is recomputed from them (rising by principal + discounts − interest when it was consistent), the status follows the new amount paid and the due date, the balance is then stored, and nothing else changes |
| BankMovements.ReopenReceivable | movimentacao-bancaria.js:327-334 | the same for a receivable, on the amount received and its pending balance |
| BankMovements.EstornoFailures | movimentacao-bancaria.js:266-287 | the reversal fails with the source's messages exactly when the movement, the bridge, the parent title or the original record is missing |
| BankMovements.EstornoManual | movimentacao-bancaria.js:272-275 | a movement without a bridge is only deleted |
| BankMovements.EstornoLinkedPayment | movimentacao-bancaria.js:278-335 | for a payment: movement deleted, original marked reversed, "Estorno" record added, payable reopened; other documents unchanged |
| BankMovements.EstornoLinkedReceipt | movimentacao-bancaria.js:278-335 | the same for a receipt and its receivable |
| BankMovements.EstornoOnce | movimentacao-bancaria.js:266-267 | a movement cannot be reversed twice: the second attempt finds no movement |
| BankMovements.BankStore.HandleConciliacao | movimentacao-bancaria.js:223-246 | corrected: records the signed-in user (finding 3); nothing with no selection; the batch fails iff some id is missing, and then nothing changes; otherwise each selected movement is reconciled (or undone) with today and the user |
| BankMovements.BankStore.HandleEstorno | movimentacao-bancaria.js:252-346 | nothing unless exactly one is selected and confirmed; then the store becomes the reversal's result, or nothing changes and its error is reported |

## Left out

- Firestore reads, queries, `onSnapshot` subscriptions, `setInterval`, `async` interleaving
  and concurrency. Each query result is an input sequence in the query's order. Writes are
  modelled only as their effect on the stored documents.
- DOM rendering, HTML strings, charts, `alert`/`confirm`/`prompt` and feedback toasts. A
  confirmation answer is a `bool` parameter.
- Floating-point arithmetic. The chart's `/100` scaling. Currency and date formatting, which
  are `Formats` parameters that build the notification message text.
- JavaScript `Date` arithmetic:
  - `Math.ceil` day differences are integer parameters;
  - the month shift used by installments and recurrences is an `addMonths` parameter;
  - today and the three-day window are inputs;
  - the reversal uses one `today` for both the status comparison (local midnight) and the
    record date (`toISOString`, which can be a day off in some time zones).
- Server timestamps and auto-generated or `Date.now` ids. A new id is a parameter; the
  notifications store numbers its documents with a counter.
- The sidebar query's 50-document limit, `formatTimeAgo`, `populateTypeFilter`, the
  unimplemented export buttons and the period-comparison and statement-percentage reports.
  None of these affects the stored data.
- `toLowerCase` is modelled on ASCII letters only.
- Absent amounts are held as 0. That is exact where the source reads them with `x || 0` or
  `x || y`; `valorSaldo`, which notifications.js:72 and :101 read with `??`, also carries a
  presence flag. A movement without a date is not modelled.
- The bank screen's subscription switching, `resetKPIs` and the query by account.
  `ProcessAndRender` receives the selected account's documents.
- BankMovements.BankStore.HandleConciliacao: records the signed-in user (finding 3);
  `ReconcileAsWritten` keeps the literal "currentUserName" of movimentacao-bancaria.js:233.
- A checked id that is not among the loaded movements cannot arise on the page, since
  movimentacao-bancaria.js:119-121 renders the table and stores `allMovimentacoes` together;
  `BankMovements.UpdateActionButtons` still models that case, including the scans that stop
  before the missing entry.
- Reports.RollUp: receives the codes in `Object.keys` order, stably sorted by decreasing
  length as `Array.prototype.sort` does; its contract states the result for that order, and
  the totals proof needs only longer codes to come first.
- Reports.PrevisaoRecebimentos: uses the corrected cutoff (due today or later, finding 2);
  `Reports.DueNotBeforeNowAsWritten` keeps the code's comparison with the current instant.
- The reversal's status rule tests the new amount paid (or received) against zero, as the
  code does, and not the remaining contribution.
- Installments are meant to sum to the total; the code's do not (finding 1).
  `CashFlow.InstallmentValuesAsWritten` keeps the code's behaviour, and the rest of the model
  uses the corrected `CashFlow.InstallmentValues`.

## Findings

| source | as written | input that shows it | evidently intended | confidence | as-written member | corrected member |
|---|---|---|---|---|---|---|
| fluxo-de-caixa.js:1463 | every installment is `Math.round(total / n)`, so the installments need not sum to the total | total 100 cents in 3 installments: 33 + 33 + 33 = 99 | the installments sum to the total; the last absorbs the rounding remainder | not executed | CashFlow.InstallmentsAsWrittenLoseCents | CashFlow.InstallmentValues |
| relatorios.js:263-268 | the receipt forecast keeps titles due on or after `new Date()`, the current instant, not today's midnight | a receivable due today, viewed at 10:00: not in the forecast, and not in the overdue report either | titles due today are forecast, so forecast and ageing partition the dated titles | not executed | Reports.ForecastAsWrittenSkipsDueToday | Reports.ForecastAndAgingPartition |
| movimentacao-bancaria.js:233 | reconciliation stores the literal text "currentUserName" as the reconciling user | any reconciliation by user "Ana": the record says "currentUserName" | the signed-in user's name is stored | not executed | BankMovements.ReconcileAsWrittenIgnoresUser | BankMovements.BankStore.HandleConciliacao |
